/** First come, first served: on runs without reordering, out-of-order dispatch or direct
    enqueue, and without a crash between a popped row's prompt and its removal, prompts, then
    the popped row, then the queue in drain order are exactly the accepted messages in order,
    minus the cancelled and truncated ones. */
module Fifo {
  import opened Util
  import opened QueueStore
  import opened Protocol
  import opened Ownership
  import opened Ledger
  import opened Invariant

  /** Nothing in the run overtakes: no reordering, no dispatch out of turn, no enqueueing past
      smart send; and the server does not die while a popped row already is a prompt, since that
      row will be popped again. */
  predicate InOrder(s: State, ev: Event) {
    match ev
    case Arrive(req) => !req.Dispatch? && !req.Legacy? && !req.Post?
    case Reordering(_) => false
    case Crash => s.held.Some? ==> !s.held.value.landed
    case _ => true
  }

  ghost predicate AllInOrder(s: State, evs: seq<Event>)
    requires Valid(s, evs)
    decreases |evs|
  {
    evs == [] || (InOrder(s, evs[0]) && AllInOrder(Next(s, evs[0]), evs[1..]))
  }

  lemma {:induction false} WithoutAt(xs: seq<nat>, k: nat)
    requires NoDup(xs) && k < |xs|
    ensures Without(xs, {xs[k]}) == RemoveAt(xs, k)
  {
    var n := |xs| - 1;
    if k == n {
      WithoutNone(xs[..n], {xs[n]});
    } else {
      WithoutAt(xs[..n], k);
      assert xs[n] != xs[k];
      assert RemoveAt(xs, k) == RemoveAt(xs[..n], k) + [xs[n]];
    }
  }

  lemma WithoutAppend(xs: seq<nat>, ys: set<nat>, x: nat)
    ensures Without(xs + [x], ys) == if x in ys then Without(xs, ys) else Without(xs, ys) + [x]
  {
    assert (xs + [x])[..|xs|] == xs;
  }

  /** The ids still to become prompts, in drain order. */
  function Line(q: seq<Row>, held: Option<Held>): seq<nat> {
    if held.Some? && held.value.landed && q != [] then Ids(q)[1..] else Ids(q)
  }

  /** `b` is behind the whole (ascending) queue. */
  predicate Below(q: seq<Row>, b: int) {
    q == [] || q[|q| - 1].pos < b
  }

  /** The queue ends no further back than before. */
  predicate Shrinks(q: seq<Row>, r: seq<Row>) {
    r == [] || (q != [] && r[|r| - 1].pos <= q[|q| - 1].pos)
  }

  predicate Earlier(q: seq<Row>, i: nat, j: nat)
    requires i < |q| && j < |q|
  {
    q[i].pos < q[j].pos
  }

  ghost predicate Ascending(q: seq<Row>) {
    forall i: nat, j: nat | i < j < |q| :: Earlier(q, i, j)
  }

  lemma AscendingSame(q: seq<Row>, r: seq<Row>)
    requires Ascending(q) && |r| == |q| && forall k | 0 <= k < |q| :: r[k].pos == q[k].pos
    ensures Ascending(r) && Shrinks(q, r)
  {
    forall i: nat, j: nat | i < j < |r| ensures Earlier(r, i, j) { assert Earlier(q, i, j); }
  }

  lemma AscendingAppend(q: seq<Row>, r: Row)
    requires Ascending(q) && Below(q, r.pos)
    ensures Ascending(q + [r])
  {
    forall i: nat, j: nat | i < j < |q| + 1 ensures Earlier(q + [r], i, j) {
      if j < |q| { assert Earlier(q, i, j); } else if i < |q| - 1 { assert Earlier(q, i, |q| - 1); }
    }
  }

  lemma AscendingHead(q: seq<Row>, k: nat)
    requires Ascending(q) && k < |q| && !q[k].running && forall j | 0 <= j < k :: q[j].running
    ensures IsHead(q, k)
  {
    forall j | 0 <= j < |q| && !q[j].running ensures Before(q, k, j) {
      if k < j { assert Earlier(q, k, j); }
    }
  }

  lemma AscendingRemove(q: seq<Row>, k: nat)
    requires Ascending(q) && k < |q|
    ensures Ascending(RemoveAt(q, k)) && Shrinks(q, RemoveAt(q, k))
  {
    var r := RemoveAt(q, k);
    forall i: nat, j: nat | i < j < |r| ensures Earlier(r, i, j) {
      assert Earlier(q, if i < k then i else i + 1, if j < k then j else j + 1);
    }
    if k == |q| - 1 && k > 0 { assert Earlier(q, k - 1, k); }
  }

  ghost predicate Lined(q: seq<Row>, held: Option<Held>) {
    && Ascending(q)
    && (held.Some? ==> q != [] && q[0].id == held.value.id)
  }

  predicate Plain(pc: Pc) {
    match pc
    case LegacyLock(_) => false
    case PostMax(_) => false
    case PostInsert(_, _) => false
    case RunLock(pick) => pick.None?
    case RunCheck(pick) => pick.None?
    case RunPop(pick) => pick.None?
    case AddMax(who, _) => who != ByLegacy
    case AddInsert(who, _, _) => who != ByLegacy
    case AddIngest(who, _) => who != ByLegacy
    case _ => true
  }

  /** Dispatching straight past the queue. */
  predicate Direct(pc: Pc) {
    match pc
    case SendClaim(_) => true
    case AddMax(who, _) => who == BySend
    case AddInsert(who, _, _) => who == BySend
    case _ => false
  }

  ghost predicate ProcFifo(s: State, i: nat)
    requires i < |s.procs|
  {
    var pc := s.procs[i].pc;
    && Plain(pc)
    && (Direct(pc) ==> s.queue == [])
    && (pc.EnqInsert? ==> Below(s.queue, pc.pos))
  }

  ghost predicate Order(q: seq<Row>, held: Option<Held>, timeline: seq<Prompt>, accepted: seq<nat>, gone: set<nat>) {
    Lined(q, held) && MsgIds(timeline) + Line(q, held) == Without(accepted, gone)
  }

  /** Messages that left the order: cancelled, or truncated with their prompt. */
  function Gone(s: State): set<nat> {
    Elems(s.cancelled + s.removed)
  }

  ghost predicate FifoInv(s: State) {
    && Order(s.queue, s.held, s.timeline, s.accepted, Gone(s))
    && s.dups == []
    && forall i | 0 <= i < |s.procs| :: ProcFifo(s, i)
  }

  // ----- what each kind of step does to the order -------------------------------------------

  lemma OrderInsert(q: seq<Row>, held: Option<Held>, timeline: seq<Prompt>, accepted: seq<nat>, gone: set<nat>, r: Row)
    requires Order(q, held, timeline, accepted, gone)
    requires r.id !in gone && Below(q, r.pos)
    ensures Order(q + [r], held, timeline, accepted + [r.id], gone)
  {
    AscendingAppend(q, r);
    assert Ids(q + [r]) == Ids(q) + [r.id];
    assert Line(q + [r], held) == Line(q, held) + [r.id];
    WithoutAppend(accepted, gone, r.id);
    assert MsgIds(timeline) + (Line(q, held) + [r.id]) == MsgIds(timeline) + Line(q, held) + [r.id];
  }

  lemma OrderDirect(timeline: seq<Prompt>, accepted: seq<nat>, gone: set<nat>, p: Prompt)
    requires Order([], None, timeline, accepted, gone) && p.msg.id !in gone
    ensures Order([], None, timeline + [p], accepted + [p.msg.id], gone)
  {
    assert MsgIds(timeline + [p]) == MsgIds(timeline) + [p.msg.id];
    WithoutAppend(accepted, gone, p.msg.id);
    assert MsgIds(timeline) + [] == MsgIds(timeline);
    assert Ids([]) == [];
  }

  lemma OrderLand(q: seq<Row>, held: Held, timeline: seq<Prompt>, accepted: seq<nat>, gone: set<nat>, p: Prompt)
    requires Order(q, Some(held), timeline, accepted, gone) && !held.landed && p.msg.id == held.id
    ensures Order(q, Some(held.(landed := true)), timeline + [p], accepted, gone)
  {
    assert MsgIds(timeline + [p]) == MsgIds(timeline) + [p.msg.id];
    PassFirst(MsgIds(timeline), Ids(q));
  }

  lemma PassFirst(a: seq<nat>, b: seq<nat>)
    requires b != []
    ensures a + b == (a + [b[0]]) + b[1..]
  {
  }

  lemma OrderPop(q: seq<Row>, timeline: seq<Prompt>, accepted: seq<nat>, gone: set<nat>, pid: nat)
    requires Order(q, None, timeline, accepted, gone) && q != []
    ensures Order(MarkRunning(q, 0), Some(Held(pid, q[0].id, false)), timeline, accepted, gone)
        && Shrinks(q, MarkRunning(q, 0))
  {
    AscendingSame(q, MarkRunning(q, 0));
    assert Ids(MarkRunning(q, 0)) == Ids(q);
  }

  lemma OrderReset(q: seq<Row>, held: Held, timeline: seq<Prompt>, accepted: seq<nat>, gone: set<nat>)
    requires Order(q, Some(held), timeline, accepted, gone) && UniqueIds(q) && !held.landed
    ensures Order(Reset(q, held.id), None, timeline, accepted, gone) && Shrinks(q, Reset(q, held.id))
  {
    AscendingSame(q, Reset(q, held.id));
    FindUnique(q, 0);
    assert Ids(Reset(q, held.id)) == Ids(q);
  }

  lemma OrderDone(q: seq<Row>, held: Held, timeline: seq<Prompt>, accepted: seq<nat>, gone: set<nat>)
    requires Order(q, Some(held), timeline, accepted, gone) && RowsOk(q, Some(held), accepted) && held.landed
    ensures Order(Delete(q, held.id, true), None, timeline, accepted, gone)
    ensures Delete(q, held.id, true) == q[1..] && Shrinks(q, q[1..])
  {
    AscendingRemove(q, 0);
    DeleteHead(q);
    assert Ids(q[1..]) == Ids(q)[1..];
  }

  lemma DeleteHead(q: seq<Row>)
    requires q != [] && UniqueIds(q) && q[0].running
    ensures RemoveAt(q, 0) == q[1..] && Delete(q, q[0].id, true) == q[1..]
  {
    FindUnique(q, 0);
  }

  lemma IdsRemoved(q: seq<Row>, k: nat)
    requires k < |q|
    ensures Ids(RemoveAt(q, k)) == RemoveAt(Ids(q), k)
  {
  }

  lemma RemoveFromTail(xs: seq<nat>, k: nat)
    requires 0 < k < |xs|
    ensures RemoveAt(xs, k)[1..] == RemoveAt(xs[1..], k - 1)
  {
  }

  lemma LineCancel(q: seq<Row>, held: Option<Held>, k: nat) returns (at: nat)
    requires Lined(q, held) && k < |q| && (held.Some? ==> k > 0)
    ensures Lined(RemoveAt(q, k), held) && Shrinks(q, RemoveAt(q, k))
    ensures at < |Line(q, held)| && Line(q, held)[at] == q[k].id
    ensures Line(RemoveAt(q, k), held) == RemoveAt(Line(q, held), at)
  {
    AscendingRemove(q, k);
    IdsRemoved(q, k);
    if held.Some? && held.value.landed {
      at := k - 1;
      RemoveFromTail(Ids(q), k);
    } else {
      at := k;
    }
  }

  lemma OrderCancel(q: seq<Row>, held: Option<Held>, timeline: seq<Prompt>, accepted: seq<nat>, gone: set<nat>, k: nat)
    requires Order(q, held, timeline, accepted, gone) && NoDup(accepted)
    requires k < |q| && (held.Some? ==> k > 0)
    ensures Order(RemoveAt(q, k), held, timeline, accepted, gone + {q[k].id})
    ensures Shrinks(q, RemoveAt(q, k))
  {
    var at := LineCancel(q, held, k);
    CancelFromLine(MsgIds(timeline), Line(q, held), at, accepted, gone, q[k].id);
  }

  lemma CancelFromLine(ids: seq<nat>, line: seq<nat>, at: nat, accepted: seq<nat>, gone: set<nat>, id: nat)
    requires ids + line == Without(accepted, gone) && NoDup(accepted)
    requires at < |line| && line[at] == id
    ensures ids + RemoveAt(line, at) == Without(accepted, gone + {id})
  {
    DropAt(ids + line, accepted, gone, |ids| + at);
    RemoveFromSecond(ids, line, at);
  }

  lemma DropAt(xs: seq<nat>, accepted: seq<nat>, gone: set<nat>, k: nat)
    requires xs == Without(accepted, gone) && NoDup(accepted) && k < |xs|
    ensures RemoveAt(xs, k) == Without(accepted, gone + {xs[k]})
  {
    WithoutTwice(accepted, gone, xs[k]);
    WithoutNoDup(accepted, gone);
    WithoutAt(xs, k);
  }

  lemma RemoveFromSecond(a: seq<nat>, b: seq<nat>, k: nat)
    requires k < |b|
    ensures RemoveAt(a + b, |a| + k) == a + RemoveAt(b, k)
  {
  }

  lemma CancelledAccepted(s: State)
    requires Inv(s) && s.dups == []
    ensures forall x | x in Gone(s) :: x in s.accepted
  {
    forall x | x in Gone(s) ensures x in s.accepted {
      assert x in multiset(s.cancelled + s.removed);
      assert x in multiset(s.accepted) + multiset(s.dups);
    }
  }

  ghost predicate FifoMoved(s: State, i: nat, m: Move)
    requires i < |s.procs|
  {
    var t := m.after;
    && Order(t.queue, t.held, t.timeline, t.accepted, Gone(t)) && t.dups == []
    && (s.procs[i].pc.EnqInsert? || Shrinks(s.queue, t.queue))
    && Plain(m.pc) && (Direct(m.pc) ==> t.queue == []) && (m.pc.EnqInsert? ==> Below(t.queue, m.pc.pos))
  }

  lemma FifoApply(s: State, i: nat, m: Move)
    requires OwnInv(s) && FifoInv(s) && i < |s.procs| && FifoMoved(s, i, m)
    ensures FifoInv(Set(m.after.(procs := s.procs), i, m.pc))
  {
    var t := Set(m.after.(procs := s.procs), i, m.pc);
    forall j | 0 <= j < |s.procs| ensures ProcFifo(t, j) {
      assert ProcFifo(s, j) && ProcOwn(s, j) && ProcOwn(s, i);
    }
  }

  /** What the steps below need from the invariants. */
  ghost predicate InLine(s: State, i: nat) {
    && Alone(s, i) && ProcFifo(s, i) && RowsOk(s.queue, s.held, s.accepted)
    && Order(s.queue, s.held, s.timeline, s.accepted, Gone(s))
    && s.dups == []
    && (forall x | x in Gone(s) :: x in s.accepted)
  }

  /** With nothing popped no row is Running and the first row is the head. */
  lemma HeadIsFirst(q: seq<Row>, accepted: seq<nat>)
    requires RowsOk(q, None, accepted) && Ascending(q)
    ensures HasPending(q) <==> q != []
    ensures q != [] ==> Head(q) == Some(0)
  {
    if q != [] {
      assert !q[0].running;
      AscendingHead(q, 0);
      HeadUnique(q, 0);
    }
  }

  lemma FifoEnqueue(s: State, i: nat)
    requires InLine(s, i) && s.procs[i].pc.EnqInsert?
    ensures FifoMoved(s, i, Step(s, i))
  {
    var pc := s.procs[i].pc;
    OrderInsert(s.queue, s.held, s.timeline, s.accepted, Gone(s), Row(i, pc.m.body, false, pc.pos));
  }

  lemma DirectShape(s: State, i: nat, m: Msg)
    requires i < |s.procs| && s.procs[i].pc.AddInsert? && s.procs[i].pc.who == BySend && s.procs[i].pc.m == m
    ensures var p := Prompt(s.procs[i].pc.num, m);
            Step(s, i) == Move(s.(timeline := s.timeline + [p], landing := Some(i), accepted := s.accepted + [m.id]),
                AddIngest(BySend, p))
  {
  }

  lemma FifoDirect(s: State, i: nat)
    requires InLine(s, i) && s.procs[i].pc.AddInsert? && s.procs[i].pc.who == BySend
    ensures FifoMoved(s, i, Step(s, i))
  {
    assert s.held.None? && s.queue == [];
    DirectShape(s, i, s.procs[i].pc.m);
    OrderDirect(s.timeline, s.accepted, Gone(s), Prompt(s.procs[i].pc.num, s.procs[i].pc.m));
  }

  lemma LandShape(s: State, i: nat, h: Held)
    requires i < |s.procs| && s.procs[i].pc.AddInsert? && s.procs[i].pc.who in {ByRun, ByDrain} && s.held == Some(h)
    ensures var p := Prompt(s.procs[i].pc.num, s.procs[i].pc.m);
            Step(s, i) == Move(s.(timeline := s.timeline + [p], landing := Some(i), held := Some(h.(landed := true))),
                AddIngest(s.procs[i].pc.who, p))
  {
  }

  lemma FifoLand(s: State, i: nat)
    requires InLine(s, i) && s.procs[i].pc.AddInsert? && s.procs[i].pc.who in {ByRun, ByDrain}
    ensures FifoMoved(s, i, Step(s, i))
  {
    var h := Held(i, s.procs[i].pc.m.id, false);
    assert s.held == Some(h);
    LandShape(s, i, h);
    OrderLand(s.queue, h, s.timeline, s.accepted, Gone(s), Prompt(s.procs[i].pc.num, s.procs[i].pc.m));
  }

  lemma PopShape(s: State, i: nat)
    requires i < |s.procs| && Plain(s.procs[i].pc) && (s.procs[i].pc.RunPop? || s.procs[i].pc.DrainPop?)
    ensures Step(s, i) == Popped(s, i, Head(s.queue), s.procs[i].pc.DrainPop?)
  {
  }

  lemma FifoPop(s: State, i: nat, drain: bool)
    requires InLine(s, i) && s.held.None?
    ensures FifoMoved(s, i, Popped(s, i, Head(s.queue), drain))
  {
    HeadIsFirst(s.queue, s.accepted);
    if s.queue != [] { OrderPop(s.queue, s.timeline, s.accepted, Gone(s), i); }
  }

  lemma ResetShape(s: State, i: nat)
    requires i < |s.procs| && s.procs[i].pc.DrainReset?
    ensures Step(s, i) == Move(s.(queue := Reset(s.queue, s.procs[i].pc.m.id), held := None), ClearLock)
  {
  }

  lemma FifoReset(s: State, i: nat)
    requires InLine(s, i) && s.procs[i].pc.DrainReset?
    ensures FifoMoved(s, i, Step(s, i))
  {
    ResetShape(s, i);
    var h := Held(i, s.procs[i].pc.m.id, false);
    assert s.held == Some(h);
    OrderReset(s.queue, h, s.timeline, s.accepted, Gone(s));
  }

  lemma DoneShape(s: State, i: nat, m: Msg)
    requires i < |s.procs| && (s.procs[i].pc == RunMarkDone(m) || s.procs[i].pc == DrainMarkDone(m))
    ensures Grip(s.procs[i].pc) == Some((m.id, true))
    ensures Step(s, i).after == s.(queue := Delete(s.queue, m.id, true), held := None)
    ensures Step(s, i).pc == SpawnTurn || Step(s, i).pc == Turn
  {
  }

  lemma GripsLanded(s: State, i: nat, id: nat)
    requires i < |s.procs| && ProcStore(s, i) && Grip(s.procs[i].pc) == Some((id, true))
    ensures s.held == Some(Held(i, id, true))
  {
  }

  lemma FifoDone(s: State, i: nat, h: Held, next: Move)
    requires i < |s.procs| && s.held == Some(h) && h.landed && s.dups == []
    requires Order(s.queue, Some(h), s.timeline, s.accepted, Gone(s)) && RowsOk(s.queue, Some(h), s.accepted)
    requires next.after == s.(queue := Delete(s.queue, h.id, true), held := None)
    requires next.pc == SpawnTurn || next.pc == Turn
    ensures FifoMoved(s, i, next)
  {
    OrderDone(s.queue, h, s.timeline, s.accepted, Gone(s));
  }

  /** A sender that finds the flag clear and nothing pending finds the queue empty. */
  lemma FifoRead(s: State, i: nat)
    requires InLine(s, i) && s.procs[i].pc.SendRead? && (!s.flag ==> s.held.None?)
    ensures FifoMoved(s, i, Step(s, i))
  {
    if !s.flag { HeadIsFirst(s.queue, s.accepted); }
  }

  lemma ReaderFindsNothingPopped(s: State, i: nat)
    requires Inv(s) && i < |s.procs| && s.procs[i].pc.SendRead? && !s.flag
    ensures s.held.None?
  {
    var j := if s.held.Some? then s.held.value.pid else i;
    assert ProcStore(s, j) && ProcOwn(s, j) && ProcOwn(s, i);
  }

  predicate Moves(pc: Pc) {
    || pc.EnqInsert? || pc.AddInsert? || pc.SendRead? || pc.TruncDelete?
    || pc.RunPop? || pc.DrainPop? || pc.DrainReset? || pc.RunMarkDone? || pc.DrainMarkDone?
  }

  /** The step leaves the line alone. */
  predicate Bystander(s: State, i: nat, m: Move)
    requires i < |s.procs|
  {
    && m.after.queue == s.queue && m.after.held == s.held && m.after.timeline == s.timeline
    && m.after.accepted == s.accepted && m.after.cancelled == s.cancelled && m.after.dups == s.dups
        && m.after.removed == s.removed
    && Plain(m.pc) && (Direct(m.pc) ==> Direct(s.procs[i].pc)) && (m.pc.EnqInsert? ==> m.pc.pos == NextPos(s.queue))
  }

  lemma QuietSend(s: State, i: nat)
    requires i < |s.procs| && Plain(s.procs[i].pc) && !Moves(s.procs[i].pc) && FamilyOf(s.procs[i].pc) == Sending
    ensures Bystander(s, i, GoSend(s, i))
  {
  }

  lemma QuietAdd(s: State, i: nat)
    requires i < |s.procs| && Plain(s.procs[i].pc) && !Moves(s.procs[i].pc)
        && FamilyOf(s.procs[i].pc) in {Adding, Claiming}
    ensures Bystander(s, i, if FamilyOf(s.procs[i].pc) == Adding then GoAdd(s, i) else GoClaim(s, i))
  {
  }

  lemma QuietRun(s: State, i: nat)
    requires i < |s.procs| && Plain(s.procs[i].pc) && !Moves(s.procs[i].pc)
        && FamilyOf(s.procs[i].pc) in {Running, Kicking}
    ensures Bystander(s, i, if FamilyOf(s.procs[i].pc) == Running then GoRun(s, i) else GoKick(s, i))
  {
  }

  lemma QuietDrain(s: State, i: nat)
    requires i < |s.procs| && Plain(s.procs[i].pc) && !Moves(s.procs[i].pc)
        && FamilyOf(s.procs[i].pc) in {Draining, Clearing}
    ensures Bystander(s, i, if FamilyOf(s.procs[i].pc) == Draining then GoDrain(s, i) else GoClear(s, i))
  {
  }

  lemma QuietCut(s: State, i: nat)
    requires i < |s.procs| && s.procs[i].pc.TruncCut?
    ensures Bystander(s, i, GoCut(s, i))
  {
  }

  /** Every other step leaves the line alone. */
  lemma FifoQuiet(s: State, i: nat)
    requires i < |s.procs| && Plain(s.procs[i].pc) && !Moves(s.procs[i].pc)
        && FamilyOf(s.procs[i].pc) !in {Ended, Spawning}
    ensures Bystander(s, i, Step(s, i))
  {
    match FamilyOf(s.procs[i].pc)
    case Sending => QuietSend(s, i);
    case Claiming => QuietAdd(s, i);
    case Adding => QuietAdd(s, i);
    case Draining => QuietDrain(s, i);
    case Clearing => QuietDrain(s, i);
    case Truncating => QuietCut(s, i);
    case _ => QuietRun(s, i);
  }

  lemma GetInLine(s: State, i: nat)
    requires Inv(s) && FifoInv(s) && i < |s.procs|
    ensures InLine(s, i)
  {
    GetAlone(s, i);
    CancelledAccepted(s);
    assert ProcFifo(s, i);
  }

  lemma EraseShape(s: State, i: nat)
    requires i < |s.procs| && s.procs[i].pc.TruncDelete?
    ensures Plain(Step(s, i).pc) && !Direct(Step(s, i).pc) && !Step(s, i).pc.EnqInsert?
    ensures Step(s, i).after == s || exists p :: Step(s, i).after == Erase(s, p)
  {
  }

  /** A truncated prompt leaves the order where it stands. */
  lemma FifoErase(s: State, i: nat, m: Move)
    requires InLine(s, i) && s.procs[i].pc.TruncDelete? && NoDup(s.accepted)
    requires Plain(m.pc) && !Direct(m.pc) && !m.pc.EnqInsert?
    requires m.after == s || exists p :: m.after == Erase(s, p)
    ensures FifoMoved(s, i, m)
  {
    if m.after != s {
      var p :| m.after == Erase(s, p);
      match FindPrompt(s.timeline, p)
      case None =>
      case Some(k) =>
        OrderErase(s.queue, s.held, s.timeline, s.accepted, Gone(s), k);
        assert Gone(m.after) == Gone(s) + {p.msg.id};
    }
  }

  lemma OrderErase(q: seq<Row>, held: Option<Held>, timeline: seq<Prompt>, accepted: seq<nat>, gone: set<nat>, k: nat)
    requires Order(q, held, timeline, accepted, gone) && NoDup(accepted) && k < |timeline|
    ensures Order(q, held, RemoveAt(timeline, k), accepted, gone + {timeline[k].msg.id})
  {
    var ids, line := MsgIds(timeline), Line(q, held);
    assert MsgIds(RemoveAt(timeline, k)) == RemoveAt(ids, k);
    DropAt(ids + line, accepted, gone, k);
    RemoveFromFirst(ids, line, k);
  }

  lemma RemoveFromFirst(a: seq<nat>, b: seq<nat>, k: nat)
    requires k < |a|
    ensures RemoveAt(a + b, k) == RemoveAt(a, k) + b
  {
  }

  lemma FifoMove(s: State, i: nat)
    requires InLine(s, i) && NoDup(s.accepted) && FamilyOf(s.procs[i].pc) !in {Ended, Spawning}
    requires s.procs[i].pc.SendRead? && !s.flag ==> s.held.None?
    ensures FifoMoved(s, i, Step(s, i))
  {
    var pc := s.procs[i].pc;
    if pc.EnqInsert? { FifoEnqueue(s, i); }
    else if pc.AddInsert? { if pc.who == BySend { FifoDirect(s, i); } else { FifoLand(s, i); } }
    else if pc.RunPop? || pc.DrainPop? { PopShape(s, i); FifoPop(s, i, pc.DrainPop?); }
    else if pc.DrainReset? { FifoReset(s, i); }
    else if pc.RunMarkDone? || pc.DrainMarkDone? {
      DoneShape(s, i, pc.m);
      GripsLanded(s, i, pc.m.id);
      FifoDone(s, i, Held(i, pc.m.id, true), Step(s, i));
    }
    else if pc.SendRead? { FifoRead(s, i); }
    else if pc.TruncDelete? { EraseShape(s, i); FifoErase(s, i, Step(s, i)); }
    else { FifoQuiet(s, i); }
  }

  lemma FifoSpawn(s: State, i: nat, task: Pc)
    requires FifoInv(s) && i < |s.procs| && task in {DrainMode, Turn}
    ensures FifoInv(Spawn(s, i, task))
  {
    var t := Spawn(s, i, task);
    forall j | 0 <= j < |t.procs| ensures ProcFifo(t, j) {
      if j < |s.procs| { assert ProcFifo(s, j); }
    }
  }

  lemma FifoGo(s: State, i: nat)
    requires Inv(s) && FifoInv(s) && Enabled(s, Go(i))
    ensures FifoInv(GoStep(s, i))
  {
    if FamilyOf(s.procs[i].pc) == Spawning {
      FifoSpawn(s, i, if s.procs[i].pc.SpawnDrain? then DrainMode else Turn);
    } else {
      GetInLine(s, i);
      if s.procs[i].pc.SendRead? && !s.flag { ReaderFindsNothingPopped(s, i); }
      FifoMove(s, i);
      FifoApply(s, i, Step(s, i));
    }
  }

  lemma FifoCancelRow(s: State, k: nat)
    requires FifoInv(s) && NoDup(s.accepted) && k < |s.queue| && (s.held.Some? ==> k > 0)
    ensures FifoInv(s.(queue := RemoveAt(s.queue, k), cancelled := s.cancelled + [s.queue[k].id]))
  {
    var t := s.(queue := RemoveAt(s.queue, k), cancelled := s.cancelled + [s.queue[k].id]);
    var id := s.queue[k].id;
    OrderCancel(s.queue, s.held, s.timeline, s.accepted, Gone(s), k);
    assert Gone(t) == Gone(s) + {id};
    forall j | 0 <= j < |s.procs| ensures ProcFifo(t, j) { assert ProcFifo(s, j); }
  }

  lemma FifoCancel(s: State, id: nat)
    requires Inv(s) && FifoInv(s)
    ensures FifoInv(CancelStep(s, id))
  {
    match Find(s.queue, id)
    case None =>
    case Some(k) => if !s.queue[k].running { FifoCancelRow(s, k); }
  }

  lemma FifoStep(s: State, ev: Event)
    requires Inv(s) && FifoInv(s) && Enabled(s, ev) && InOrder(s, ev)
    ensures FifoInv(Next(s, ev))
  {
    match ev
    case Go(i) => FifoGo(s, i);
    case Cancel(id) => FifoCancel(s, id);
    case Edit(id, body) => FifoEdit(s, id, body);
    case Arrive(req) => FifoArrive(s, req);
    case Crash => FifoCrash(s);
  }

  /** A crash that finds no popped row already stored leaves the order alone. */
  lemma FifoCrash(s: State)
    requires FifoInv(s) && (s.held.Some? ==> !s.held.value.landed)
    ensures FifoInv(Reboot(s))
  {
    AscendingSame(s.queue, Recover(s.queue));
    assert Ids(Recover(s.queue)) == Ids(s.queue);
    forall j | 0 <= j < |s.procs| ensures ProcFifo(Reboot(s), j) {
    }
  }

  lemma FifoEdit(s: State, id: nat, body: string)
    requires FifoInv(s)
    ensures FifoInv(Next(s, Edit(id, body)))
  {
    var q := UpdateBody(s.queue, id, body);
    AscendingSame(s.queue, q);
    assert Ids(q) == Ids(s.queue);
    forall j | 0 <= j < |s.procs| ensures ProcFifo(s.(queue := q), j) { assert ProcFifo(s, j); }
  }

  lemma FifoArrive(s: State, req: Request)
    requires FifoInv(s) && Enabled(s, Arrive(req)) && InOrder(s, Arrive(req))
    ensures FifoInv(Next(s, Arrive(req)))
  {
    var t := Next(s, Arrive(req));
    forall j | 0 <= j < |t.procs| ensures ProcFifo(t, j) {
      if j < |s.procs| { assert ProcFifo(s, j); }
    }
  }

  lemma {:induction false} FifoRun(s: State, evs: seq<Event>)
    requires Inv(s) && FifoInv(s) && Valid(s, evs) && AllInOrder(s, evs)
    ensures Inv(Run(s, evs)) && FifoInv(Run(s, evs))
    decreases |evs|
  {
    if evs != [] {
      InvStep(s, evs[0]);
      FifoStep(s, evs[0]);
      FifoRun(Next(s, evs[0]), evs[1..]);
    }
  }

  lemma IdsMarked(q: seq<Row>, k: nat)
    requires k < |q|
    ensures Ids(MarkRunning(q, k)) == Ids(q)
  {
  }

  lemma {:induction false} LineIsDrainOrder(q: seq<Row>, from: nat)
    requires Ascending(q) && from <= |q|
    requires forall k | 0 <= k < |q| :: q[k].running <==> k < from
    ensures PendingOrder(q) == Ids(q)[from..]
    decreases |q| - from
  {
    if from == |q| {
      assert !HasPending(q);
    } else {
      AscendingHead(q, from);
      AscendingSame(q, MarkRunning(q, from));
      PendingUnfold(q, from);
      IdsMarked(q, from);
      LineIsDrainOrder(MarkRunning(q, from), from + 1);
      Peel(Ids(q), from);
    }
  }

  /** The ids not yet prompts are the popped one, if any, then the drain order. */
  lemma LineSplits(q: seq<Row>, held: Option<Held>, accepted: seq<nat>)
    requires Lined(q, held) && RowsOk(q, held, accepted)
    ensures Line(q, held) == (if held.Some? && !held.value.landed then [held.value.id] else []) + PendingOrder(q)
  {
    LineIsDrainOrder(q, if held.Some? then 1 else 0);
    if held.Some? { Peel(Ids(q), 0); }
  }

  lemma ServedInOrder(q: seq<Row>, held: Option<Held>, timeline: seq<Prompt>, accepted: seq<nat>, gone: set<nat>)
    requires Order(q, held, timeline, accepted, gone) && RowsOk(q, held, accepted)
    ensures var popped := if held.Some? && !held.value.landed then [held.value.id] else [];
            MsgIds(timeline) + popped + PendingOrder(q) == Without(accepted, gone)
  {
    LineSplits(q, held, accepted);
    Associates(MsgIds(timeline), if held.Some? && !held.value.landed then [held.value.id] else [], PendingOrder(q));
  }

  lemma Associates(a: seq<nat>, b: seq<nat>, c: seq<nat>)
    ensures a + b + c == a + (b + c)
  {
  }

  /** Timeline, then the popped row while it is not a prompt yet, then the queue in the order
      pops will take it: the accepted messages in order, without the cancelled and truncated. */
  lemma FirstComeFirstServed(evs: seq<Event>)
    requires Valid(IDLE, evs) && AllInOrder(IDLE, evs)
    ensures var s := Run(IDLE, evs);
            var popped := if s.held.Some? && !s.held.value.landed then [s.held.value.id] else [];
            MsgIds(s.timeline) + popped + PendingOrder(s.queue) == Without(s.accepted, Elems(s.cancelled + s.removed))
  {
    InvIdle();
    FifoRun(IDLE, evs);
    var s := Run(IDLE, evs);
    ServedInOrder(s.queue, s.held, s.timeline, s.accepted, Gone(s));
  }
}
