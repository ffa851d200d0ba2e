/**
 What the store holds: at most one row is Running and one process answers for it, and every
 accepted message is in exactly one place.
 */
module Ledger {
  import opened Util
  import opened QueueStore
  import opened Protocol
  import opened Ownership

  // ----- the queue rows ---------------------------------------------------------------------

  ghost predicate RowsOk(q: seq<Row>, held: Option<Held>, accepted: seq<nat>) {
    && UniqueIds(q)
    && (forall k | 0 <= k < |q| :: q[k].running <==> held.Some? && held.value.id == q[k].id)
    && (held.Some? ==> Find(q, held.value.id).Some?)
    && (forall k | 0 <= k < |q| :: q[k].id in accepted)
  }

  /** Messages in the queue that are not also a prompt. */
  function Waiting(q: seq<Row>, held: Option<Held>): multiset<nat> {
    multiset(Ids(q)) - if held.Some? && held.value.landed then multiset{held.value.id} else multiset{}
  }

  lemma HeldListed(q: seq<Row>, held: Held, accepted: seq<nat>)
    requires RowsOk(q, Some(held), accepted)
    ensures held.id in multiset(Ids(q))
  {
    assert Ids(q)[Find(q, held.id).value] == held.id;
  }

  lemma WaitingInsert(q: seq<Row>, held: Option<Held>, accepted: seq<nat>, r: Row)
    requires RowsOk(q, held, accepted)
    ensures Waiting(q + [r], held) == Waiting(q, held) + multiset{r.id}
  {
    if held.Some? {
      HeldListed(q, held.value, accepted);
    }
    WaitingAppend(q, held, r);
  }

  lemma WaitingAppend(q: seq<Row>, held: Option<Held>, r: Row)
    requires held.Some? ==> held.value.id in multiset(Ids(q))
    ensures Waiting(q + [r], held) == Waiting(q, held) + multiset{r.id}
  {
    assert Ids(q + [r]) == Ids(q) + [r.id];
    if held.Some? {
      SubAdd(multiset(Ids(q)), held.value.id, r.id);
    }
  }

  lemma RowsInsert(q: seq<Row>, held: Option<Held>, accepted: seq<nat>, id: nat, body: string, pos: int)
    requires RowsOk(q, held, accepted) && id !in accepted
    ensures RowsOk(Insert(q, id, body, pos), held, accepted + [id])
  {
    var r := Insert(q, id, body, pos);
    assert forall k | 0 <= k < |q| :: r[k] == q[k] && q[k].id != id;
    if held.Some? {
      var h := Find(q, held.value.id).value;
      assert r[h].id == held.value.id && q[h].id in accepted;
    }
  }

  lemma RowsPop(q: seq<Row>, accepted: seq<nat>, k: nat, pid: nat)
    requires RowsOk(q, None, accepted) && k < |q|
    ensures RowsOk(MarkRunning(q, k), Some(Held(pid, q[k].id, false)), accepted)
    ensures Waiting(MarkRunning(q, k), Some(Held(pid, q[k].id, false))) == Waiting(q, None)
  {
    assert Ids(MarkRunning(q, k)) == Ids(q);
    FindUnique(MarkRunning(q, k), k);
  }

  lemma RowsReset(q: seq<Row>, held: Held, accepted: seq<nat>)
    requires RowsOk(q, Some(held), accepted) && !held.landed
    ensures RowsOk(Reset(q, held.id), None, accepted)
    ensures Waiting(Reset(q, held.id), None) == Waiting(q, Some(held))
  {
    var k := Find(q, held.id).value;
    assert Ids(Reset(q, held.id)) == Ids(q);
    assert forall j | 0 <= j < |q| && j != k :: q[j].id != held.id;
  }

  lemma RemovedRow(q: seq<Row>, held: Option<Held>, accepted: seq<nat>, k: nat)
    requires RowsOk(q, held, accepted) && k < |q|
    ensures UniqueIds(RemoveAt(q, k))
    ensures multiset(Ids(RemoveAt(q, k))) == multiset(Ids(q)) - multiset{q[k].id}
    ensures forall j | 0 <= j < |q| - 1 :: RemoveAt(q, k)[j].id != q[k].id
  {
    assert Ids(RemoveAt(q, k)) == RemoveAt(Ids(q), k);
    RemoveAtMultiset(Ids(q), k);
  }

  lemma RowsDone(q: seq<Row>, held: Held, accepted: seq<nat>)
    requires RowsOk(q, Some(held), accepted) && held.landed
    ensures RowsOk(Delete(q, held.id, true), None, accepted)
    ensures Waiting(Delete(q, held.id, true), None) == Waiting(q, Some(held))
  {
    RemovedRow(q, Some(held), accepted, Find(q, held.id).value);
  }

  lemma RowsLand(q: seq<Row>, held: Held, accepted: seq<nat>)
    requires RowsOk(q, Some(held), accepted) && !held.landed
    ensures RowsOk(q, Some(held.(landed := true)), accepted)
    ensures Waiting(q, Some(held)) == Waiting(q, Some(held.(landed := true))) + multiset{held.id}
  {
    var k := Find(q, held.id).value;
    assert Ids(q)[k] == held.id && held.id in multiset(Ids(q));
  }

  /** Deleting a pending row leaves the popped one alone. */
  lemma RowsDrop(q: seq<Row>, held: Option<Held>, accepted: seq<nat>, k: nat)
    requires RowsOk(q, held, accepted) && k < |q| && !q[k].running
    ensures RowsOk(RemoveAt(q, k), held, accepted)
  {
    var r := RemoveAt(q, k);
    if held.Some? {
      var h := Find(q, held.value.id).value;
      assert r[if h < k then h else h - 1].id == held.value.id;
    }
  }

  lemma WaitingDrop(q: seq<Row>, held: Option<Held>, accepted: seq<nat>, k: nat)
    requires RowsOk(q, held, accepted) && k < |q| && !q[k].running
    ensures Waiting(q, held) == Waiting(RemoveAt(q, k), held) + multiset{q[k].id}
  {
    RemovedRow(q, held, accepted, k);
    RowsDrop(q, held, accepted, k);
    assert Ids(q)[k] == q[k].id;
    var ids := multiset(Ids(RemoveAt(q, k)));
    assert multiset(Ids(q)) == ids + multiset{q[k].id};
    if held.Some? {
      HeldListed(RemoveAt(q, k), held.value, accepted);
      SubAdd(ids, held.value.id, q[k].id);
    }
  }

  /** Operations that keep ids and status of every row. */
  lemma RowsSame(q: seq<Row>, r: seq<Row>, held: Option<Held>, accepted: seq<nat>)
    requires RowsOk(q, held, accepted) && |r| == |q|
    requires forall k | 0 <= k < |q| :: r[k].id == q[k].id && r[k].running == q[k].running
    ensures RowsOk(r, held, accepted) && Waiting(r, held) == Waiting(q, held)
  {
    assert Ids(r) == Ids(q);
    if held.Some? {
      FindUnique(r, Find(q, held.value.id).value);
    }
  }

  lemma RowsRecover(q: seq<Row>, held: Option<Held>, accepted: seq<nat>)
    requires RowsOk(q, held, accepted)
    ensures RowsOk(Recover(q), None, accepted)
    ensures Waiting(Recover(q), None)
         == Waiting(q, held) + if held.Some? && held.value.landed then multiset{held.value.id} else multiset{}
  {
    assert Ids(Recover(q)) == Ids(q);
    if held.Some? {
      assert Ids(q)[Find(q, held.value.id).value] == held.value.id;
    }
  }

  // ----- the invariant ----------------------------------------------------------------------

  /** Every accepted message, plus one copy per crash that caught a message twice stored,
      is a prompt, waits in the queue, was cancelled, or was truncated with its prompt. */
  ghost predicate Conserved(q: seq<Row>, held: Option<Held>, accepted: seq<nat>, timeline: seq<Prompt>, dups: seq<nat>,
      gone: seq<nat>) {
    multiset(accepted) + multiset(dups) == multiset(MsgIds(timeline)) + Waiting(q, held) + multiset(gone)
  }

  ghost predicate Books(q: seq<Row>, held: Option<Held>, accepted: seq<nat>, timeline: seq<Prompt>, dups: seq<nat>,
      gone: seq<nat>) {
    && RowsOk(q, held, accepted)
    && NoDup(accepted)
    && Conserved(q, held, accepted, timeline, dups, gone)
  }

  ghost predicate BooksOk(s: State) {
    Books(s.queue, s.held, s.accepted, s.timeline, s.dups, s.cancelled + s.removed)
  }

  predicate ProcStore(s: State, i: nat)
    requires i < |s.procs|
  {
    var pc := s.procs[i].pc;
    && Grip(pc) == GripOf(s.held, i)
    && (Carried(pc).Some? ==> Carried(pc).value.id == i && i !in s.accepted)
  }

  function GripOf(held: Option<Held>, i: nat): Option<(nat, bool)> {
    if held.Some? && held.value.pid == i then Some((held.value.id, held.value.landed)) else None
  }

  ghost predicate StoreInv(s: State) {
    && BooksOk(s)
    && (s.held.Some? ==> s.held.value.pid < |s.procs|)
    && (forall x | x in s.accepted :: x < |s.procs|)
    && forall i | 0 <= i < |s.procs| :: ProcStore(s, i)
  }

  /** A move that touches the store only on the process's own behalf, and leaves the process
      in the role the books say it has. */
  predicate StoreMoved(s: State, i: nat, m: Move)
    requires i < |s.procs|
  {
    var t := m.after;
    && (t.held == s.held || ((s.held.None? || s.held.value.pid == i) && (t.held.None? || t.held.value.pid == i)))
    && (t.accepted == s.accepted || t.accepted == s.accepted + [i])
    && Grip(m.pc) == GripOf(t.held, i)
    && (Carried(m.pc).Some? ==> Carried(m.pc).value.id == i && i !in t.accepted)
  }

  /** What the process may rely on: nobody else is in the middle of moving a message. */
  predicate Alone(s: State, i: nat) {
    && i < |s.procs| && ProcStore(s, i)
    && (Excl(s.procs[i].pc) && s.held.Some? ==> s.held.value.pid == i)
  }

  lemma GetAlone(s: State, i: nat)
    requires OwnInv(s) && StoreInv(s) && i < |s.procs|
    ensures Alone(s, i)
  {
    if Excl(s.procs[i].pc) && s.held.Some? && s.held.value.pid != i {
      assert ProcStore(s, s.held.value.pid);
      ExclUnique(s, i, s.held.value.pid);
    }
  }

  lemma StoreApply(s: State, i: nat, m: Move)
    requires StoreInv(s) && i < |s.procs| && StoreMoved(s, i, m) && BooksOk(m.after)
    ensures StoreInv(Set(m.after.(procs := s.procs), i, m.pc))
  {
    var t := Set(m.after.(procs := s.procs), i, m.pc);
    forall j | 0 <= j < |s.procs| ensures ProcStore(t, j) {
      assert ProcStore(s, j);
    }
  }

  lemma StoreSpawned(s: State, i: nat)
    requires StoreInv(s) && i < |s.procs| && FamilyOf(s.procs[i].pc) == Spawning
    ensures StoreInv(GoStep(s, i))
  {
    StoreSpawn(s, i, if s.procs[i].pc.SpawnDrain? then DrainMode else Turn);
  }

  lemma StoreSpawn(s: State, i: nat, task: Pc)
    requires StoreInv(s) && i < |s.procs| && FamilyOf(s.procs[i].pc) == Spawning && task in {DrainMode, Turn}
    ensures StoreInv(Spawn(s, i, task))
  {
    var t := Spawn(s, i, task);
    assert ProcStore(s, i);
    forall j | 0 <= j < |t.procs| ensures ProcStore(t, j) {
      if j < |s.procs| { assert ProcStore(s, j); }
    }
  }

  // roles, family by family

  lemma StoreSend(s: State, i: nat)
    requires Alone(s, i) && FamilyOf(s.procs[i].pc) == Sending
    ensures StoreMoved(s, i, GoSend(s, i))
  {
  }

  lemma StoreClaim(s: State, i: nat)
    requires Alone(s, i) && FamilyOf(s.procs[i].pc) == Claiming
    ensures StoreMoved(s, i, GoClaim(s, i))
  {
  }

  lemma StoreAdd(s: State, i: nat)
    requires Alone(s, i) && FamilyOf(s.procs[i].pc) == Adding
    ensures StoreMoved(s, i, GoAdd(s, i))
  {
  }

  lemma StoreRun(s: State, i: nat)
    requires Alone(s, i) && FamilyOf(s.procs[i].pc) == Running
    ensures StoreMoved(s, i, GoRun(s, i))
  {
    if s.procs[i].pc.RunPop? { StoreRunPop(s, i); }
  }

  lemma StoreRunPop(s: State, i: nat)
    requires Alone(s, i) && s.procs[i].pc.RunPop?
    ensures StoreMoved(s, i, GoRun(s, i))
  {
  }

  lemma StoreKick(s: State, i: nat)
    requires Alone(s, i) && FamilyOf(s.procs[i].pc) == Kicking
    ensures StoreMoved(s, i, GoKick(s, i))
  {
  }

  lemma StoreDrain(s: State, i: nat)
    requires Alone(s, i) && FamilyOf(s.procs[i].pc) == Draining
    ensures StoreMoved(s, i, GoDrain(s, i))
  {
    if s.procs[i].pc.DrainPop? { StoreDrainPop(s, i); }
  }

  lemma StoreDrainPop(s: State, i: nat)
    requires Alone(s, i) && s.procs[i].pc.DrainPop?
    ensures StoreMoved(s, i, GoDrain(s, i))
  {
  }

  lemma StoreClear(s: State, i: nat)
    requires Alone(s, i) && FamilyOf(s.procs[i].pc) == Clearing
    ensures StoreMoved(s, i, GoClear(s, i))
  {
  }

  lemma StoreCut(s: State, i: nat)
    requires Alone(s, i) && FamilyOf(s.procs[i].pc) == Truncating
    ensures StoreMoved(s, i, GoCut(s, i))
  {
  }

  // books, for the steps that change them

  lemma BooksInsert(s: State, i: nat, pos: int, body: string)
    requires BooksOk(s) && i !in s.accepted
    ensures Books(Insert(s.queue, i, body, pos), s.held, s.accepted + [i], s.timeline, s.dups, s.cancelled + s.removed)
  {
    var gone := s.cancelled + s.removed;
    RowsInsert(s.queue, s.held, s.accepted, i, body, pos);
    WaitingInsert(s.queue, s.held, s.accepted, Row(i, body, false, pos));
    AddBoth(multiset(s.accepted), multiset(s.dups), multiset(MsgIds(s.timeline)), Waiting(s.queue, s.held),
        multiset(gone), i);
    assert multiset(s.accepted + [i]) == multiset(s.accepted) + multiset{i};
  }

  lemma TimelineAppend(ps: seq<Prompt>, p: Prompt)
    ensures multiset(MsgIds(ps + [p])) == multiset(MsgIds(ps)) + multiset{p.msg.id}
  {
    assert MsgIds(ps + [p]) == MsgIds(ps) + [p.msg.id];
  }

  /** A message dispatched straight away is accepted as its prompt is stored. */
  lemma BooksDirect(s: State, i: nat, p: Prompt)
    requires BooksOk(s) && i !in s.accepted && p.msg.id == i
    ensures Books(s.queue, s.held, s.accepted + [i], s.timeline + [p], s.dups, s.cancelled + s.removed)
  {
    var gone := s.cancelled + s.removed;
    TimelineAppend(s.timeline, p);
    RowsAccept(s.queue, s.held, s.accepted, i);
    AddBoth(multiset(s.accepted), multiset(s.dups), multiset(MsgIds(s.timeline)), Waiting(s.queue, s.held),
        multiset(gone), i);
    assert multiset(s.accepted + [i]) == multiset(s.accepted) + multiset{i};
  }

  /** The prompt of a popped row is stored: the message stops waiting. */
  lemma BooksLand(s: State, p: Prompt)
    requires BooksOk(s) && s.held.Some? && !s.held.value.landed && p.msg.id == s.held.value.id
    ensures Books(s.queue, Some(s.held.value.(landed := true)), s.accepted, s.timeline + [p], s.dups,
                  s.cancelled + s.removed)
  {
    var gone := s.cancelled + s.removed;
    var landed := Some(s.held.value.(landed := true));
    TimelineAppend(s.timeline, p);
    RowsLand(s.queue, s.held.value, s.accepted);
    MoveOver(multiset(s.accepted), multiset(s.dups), multiset(MsgIds(s.timeline)), Waiting(s.queue, landed),
        multiset(gone), p.msg.id);
  }

  lemma RowsAccept(q: seq<Row>, held: Option<Held>, accepted: seq<nat>, id: nat)
    requires RowsOk(q, held, accepted)
    ensures RowsOk(q, held, accepted + [id])
  {
  }

  lemma BooksPop(s: State, i: nat, k: Option<nat>, drain: bool)
    requires BooksOk(s) && s.held.None? && (k.Some? ==> k.value < |s.queue|)
    ensures i < |s.procs| ==> BooksOk(Popped(s, i, k, drain).after)
  {
    if k.Some? { RowsPop(s.queue, s.accepted, k.value, i); }
  }

  lemma BooksSend(s: State, i: nat)
    requires Alone(s, i) && BooksOk(s) && FamilyOf(s.procs[i].pc) == Sending
    ensures BooksOk(GoSend(s, i).after)
  {
    var pc := s.procs[i].pc;
    if pc.EnqInsert? || pc.PostInsert? { BooksInsert(s, i, pc.pos, pc.m.body); }
  }

  lemma BooksAdd(s: State, i: nat)
    requires Alone(s, i) && BooksOk(s) && FamilyOf(s.procs[i].pc) == Adding
    ensures BooksOk(GoAdd(s, i).after)
  {
    var pc := s.procs[i].pc;
    if pc.AddInsert? {
      var p := Prompt(pc.num, pc.m);
      if pc.who == BySend || pc.who == ByLegacy { BooksDirect(s, i, p); } else { BooksLand(s, p); }
    }
  }

  lemma BooksRunPop(s: State, i: nat)
    requires Alone(s, i) && BooksOk(s) && s.procs[i].pc.RunPop?
    ensures BooksOk(GoRun(s, i).after)
  {
    var k := RunPopShape(s, i);
    BooksPop(s, i, k, false);
  }

  lemma RunPopShape(s: State, i: nat) returns (k: Option<nat>)
    requires i < |s.procs| && s.procs[i].pc.RunPop?
    ensures (k.Some? ==> k.value < |s.queue| && !s.queue[k.value].running) && GoRun(s, i) == Popped(s, i, k, false)
  {
    var pick := s.procs[i].pc.pick;
    k := if pick.None? then Head(s.queue) else FindPending(s.queue, pick.value);
  }

  /** A popped row that is a prompt leaves the queue. */
  lemma BooksDone(s: State, i: nat, id: nat)
    requires i < |s.procs| && ProcStore(s, i) && BooksOk(s) && Grip(s.procs[i].pc) == Some((id, true))
    ensures BooksOk(s.(queue := Delete(s.queue, id, true), held := None))
  {
    RowsDone(s.queue, s.held.value, s.accepted);
  }

  /** The same rows, prompts and books. */
  predicate Alike(s: State, t: State) {
    && t.queue == s.queue && t.held == s.held && t.accepted == s.accepted && t.timeline == s.timeline
    && t.dups == s.dups && t.cancelled == s.cancelled && t.removed == s.removed
  }

  lemma BooksAlike(s: State, t: State)
    requires BooksOk(s) && Alike(s, t)
    ensures BooksOk(t)
  {
  }

  lemma RunShape(s: State, i: nat)
    requires i < |s.procs| && FamilyOf(s.procs[i].pc) == Running && !s.procs[i].pc.RunPop?
    ensures var t, pc := GoRun(s, i).after, s.procs[i].pc;
            if pc.RunMarkDone? then t == s.(queue := Delete(s.queue, pc.m.id, true), held := None) else Alike(s, t)
  {
  }

  lemma BooksRun(s: State, i: nat)
    requires Alone(s, i) && BooksOk(s) && FamilyOf(s.procs[i].pc) == Running
    ensures BooksOk(GoRun(s, i).after)
  {
    if s.procs[i].pc.RunPop? {
      BooksRunPop(s, i);
    } else {
      RunShape(s, i);
      if s.procs[i].pc.RunMarkDone? { BooksDone(s, i, s.procs[i].pc.m.id); } else { BooksAlike(s, GoRun(s, i).after); }
    }
  }

  lemma BooksDrain(s: State, i: nat)
    requires Alone(s, i) && BooksOk(s) && FamilyOf(s.procs[i].pc) == Draining
    ensures BooksOk(GoDrain(s, i).after)
  {
    var pc := s.procs[i].pc;
    if pc.DrainPop? { BooksPop(s, i, Head(s.queue), true); }
    else if pc.DrainMarkDone? { BooksDone(s, i, pc.m.id); }
    else if pc.DrainReset? { RowsReset(s.queue, s.held.value, s.accepted); }
  }

  /** A deleted prompt moves from the timeline to the truncated ones. */
  lemma BooksErase(s: State, p: Prompt)
    requires BooksOk(s)
    ensures BooksOk(Erase(s, p))
  {
    match FindPrompt(s.timeline, p)
    case None =>
    case Some(k) =>
      var rest := RemoveAt(s.timeline, k);
      assert MsgIds(rest) == RemoveAt(MsgIds(s.timeline), k);
      RemoveAtMultiset(MsgIds(s.timeline), k);
      var gone := multiset(s.cancelled + s.removed);
      assert multiset(s.cancelled + (s.removed + [p.msg.id])) == gone + multiset{p.msg.id};
      LetGo(multiset(MsgIds(rest)), Waiting(s.queue, s.held), gone, p.msg.id);
  }

  lemma LetGo(t: multiset<nat>, w: multiset<nat>, g: multiset<nat>, x: nat)
    ensures (t + multiset{x}) + w + g == t + w + (g + multiset{x})
  {
  }

  lemma BooksCut(s: State, i: nat)
    requires i < |s.procs| && BooksOk(s) && FamilyOf(s.procs[i].pc) == Truncating
    ensures BooksOk(GoCut(s, i).after)
  {
    match s.procs[i].pc
    case TruncDelete(rows) => if rows != [] { BooksErase(s, rows[0]); }
    case _ =>
  }

  lemma StoreStep(s: State, i: nat)
    requires Alone(s, i) && FamilyOf(s.procs[i].pc) !in {Ended, Spawning}
    ensures StoreMoved(s, i, Step(s, i))
  {
    match FamilyOf(s.procs[i].pc)
    case Sending => StoreSend(s, i);
    case Claiming => StoreClaim(s, i);
    case Adding => StoreAdd(s, i);
    case Running => StoreRun(s, i);
    case Kicking => StoreKick(s, i);
    case Draining => StoreDrain(s, i);
    case Clearing => StoreClear(s, i);
    case Truncating => StoreCut(s, i);
  }

  lemma OtherShape(s: State, i: nat)
    requires i < |s.procs| && FamilyOf(s.procs[i].pc) in {Claiming, Kicking, Clearing}
    ensures Alike(s, Step(s, i).after)
  {
  }

  lemma BooksOther(s: State, i: nat)
    requires i < |s.procs| && BooksOk(s) && FamilyOf(s.procs[i].pc) in {Claiming, Kicking, Clearing}
    ensures BooksOk(Step(s, i).after)
  {
    OtherShape(s, i);
    BooksAlike(s, Step(s, i).after);
  }

  lemma BooksStep(s: State, i: nat)
    requires Alone(s, i) && BooksOk(s) && FamilyOf(s.procs[i].pc) !in {Ended, Spawning}
    ensures BooksOk(Step(s, i).after)
  {
    match FamilyOf(s.procs[i].pc)
    case Sending => BooksSend(s, i);
    case Adding => BooksAdd(s, i);
    case Running => BooksRun(s, i);
    case Draining => BooksDrain(s, i);
    case Truncating => BooksCut(s, i);
    case _ => BooksOther(s, i);
  }

  lemma StoreGo(s: State, i: nat)
    requires OwnInv(s) && StoreInv(s) && Enabled(s, Go(i))
    ensures StoreInv(GoStep(s, i))
  {
    GetAlone(s, i);
    if FamilyOf(s.procs[i].pc) == Spawning {
      StoreSpawned(s, i);
    } else {
      StoreStep(s, i);
      BooksStep(s, i);
      StoreApply(s, i, Step(s, i));
    }
  }

  // ----- steps from outside -----------------------------------------------------------------

  lemma StoreArrive(s: State, req: Request)
    requires StoreInv(s) && Enabled(s, Arrive(req))
    ensures StoreInv(Next(s, Arrive(req)))
  {
    var t := Next(s, Arrive(req));
    forall j | 0 <= j < |t.procs| ensures ProcStore(t, j) {
      if j < |s.procs| { assert ProcStore(s, j); }
    }
  }

  /** Steps that only rewrite rows, and possibly the list of cancelled messages. */
  lemma StoreRows(s: State, q: seq<Row>, cancelled: seq<nat>)
    requires StoreInv(s) && Books(q, s.held, s.accepted, s.timeline, s.dups, cancelled + s.removed)
    ensures StoreInv(s.(queue := q, cancelled := cancelled))
  {
    forall j | 0 <= j < |s.procs| ensures ProcStore(s.(queue := q, cancelled := cancelled), j) {
      assert ProcStore(s, j);
    }
  }

  lemma StoreCancel(s: State, id: nat)
    requires StoreInv(s)
    ensures StoreInv(CancelStep(s, id))
  {
    match Find(s.queue, id)
    case None =>
    case Some(k) =>
      if !s.queue[k].running {
        var q := RemoveAt(s.queue, k);
        RowsDrop(s.queue, s.held, s.accepted, k);
        WaitingDrop(s.queue, s.held, s.accepted, k);
        MoveOver(multiset(s.accepted), multiset(s.dups), multiset(MsgIds(s.timeline)), Waiting(q, s.held),
            multiset(s.cancelled + s.removed), id);
        assert multiset(s.cancelled + [id] + s.removed) == multiset(s.cancelled + s.removed) + multiset{id};
        StoreRows(s, q, s.cancelled + [id]);
      }
  }

  lemma StoreRewrite(s: State, q: seq<Row>)
    requires StoreInv(s) && |q| == |s.queue|
    requires forall k | 0 <= k < |q| :: q[k].id == s.queue[k].id && q[k].running == s.queue[k].running
    ensures StoreInv(s.(queue := q))
  {
    RowsSame(s.queue, q, s.held, s.accepted);
    StoreRows(s, q, s.cancelled);
    assert s.(queue := q) == s.(queue := q, cancelled := s.cancelled);
  }

  lemma StoreCrash(s: State)
    requires StoreInv(s)
    ensures StoreInv(Reboot(s))
  {
    var t := Reboot(s);
    RowsRecover(s.queue, s.held, s.accepted);
    if s.held.Some? && s.held.value.landed {
      var id := s.held.value.id;
      AddBoth(multiset(s.accepted), multiset(s.dups), multiset(MsgIds(s.timeline)), Waiting(s.queue, s.held),
          multiset(s.cancelled + s.removed), id);
      assert multiset(s.dups + [id]) == multiset(s.dups) + multiset{id};
    }
    forall j | 0 <= j < |t.procs| ensures ProcStore(t, j) {
    }
  }

  lemma StoreInvStep(s: State, ev: Event)
    requires OwnInv(s) && StoreInv(s) && Enabled(s, ev)
    ensures StoreInv(Next(s, ev))
  {
    match ev
    case Arrive(req) => StoreArrive(s, req);
    case Go(i) => StoreGo(s, i);
    case Cancel(id) => StoreCancel(s, id);
    case Edit(id, body) => StoreRewrite(s, UpdateBody(s.queue, id, body));
    case Reordering(ids) => StoreRewrite(s, Reorder(s.queue, ids));
    case Crash => StoreCrash(s);
  }
}
