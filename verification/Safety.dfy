/** Main results about every disciplined run from the fresh chat: no two turns, nothing lost
    or repeated, prompt numbers without a gap, and recovery from a crash at any step. */
module Safety {
  import opened Util
  import opened QueueStore
  import opened Protocol
  import opened Ownership
  import opened Ledger
  import opened Numbering
  import opened Invariant

  ghost predicate Owner(s: State, i: nat) {
    i < |s.procs| && Owns(s.procs[i].pc)
  }

  lemma InvReached(evs: seq<Event>)
    requires Valid(IDLE, evs)
    ensures Inv(Run(IDLE, evs))
  {
    InvIdle();
    InvRun(IDLE, evs);
  }

  /** The chat is in the dispatching set exactly while one process answers for it: the handler
      between claim and spawn, or the one live task. So there is never a second turn. */
  lemma NoParallelTurns(evs: seq<Event>)
    requires Valid(IDLE, evs)
    ensures var s := Run(IDLE, evs); s.flag <==> exists i: nat :: Owner(s, i)
    ensures var s := Run(IDLE, evs); forall i: nat, j: nat | Owner(s, i) && Owner(s, j) :: i == j
  {
    InvReached(evs);
    var s := Run(IDLE, evs);
    forall i: nat | Owner(s, i) ensures s.owner == Some(i) {
      assert ProcOwn(s, i);
    }
    if s.owner.Some? {
      assert ProcOwn(s, s.owner.value) && Owner(s, s.owner.value);
    }
  }

  function Count(xs: seq<nat>, x: nat): nat {
    multiset(xs)[x]
  }

  function CountCrashes(evs: seq<Event>): nat {
    if evs == [] then 0 else (if evs[0].Crash? then 1 else 0) + CountCrashes(evs[1..])
  }

  lemma {:induction false} DupsBounded(s: State, evs: seq<Event>)
    requires Valid(s, evs)
    ensures |Run(s, evs).dups| <= |s.dups| + CountCrashes(evs)
    decreases |evs|
  {
    if evs != [] {
      if evs[0].Go? { DupsGo(s, evs[0].i); }
      DupsBounded(Next(s, evs[0]), evs[1..]);
    }
  }

  predicate DupsAccepted(s: State) {
    forall x | x in s.dups :: x in s.accepted
  }

  lemma {:induction false} DupsWereAccepted(s: State, evs: seq<Event>)
    requires Inv(s) && Valid(s, evs) && DupsAccepted(s)
    ensures DupsAccepted(Run(s, evs))
    decreases |evs|
  {
    if evs != [] {
      DupsStep(s, evs[0]);
      InvStep(s, evs[0]);
      DupsWereAccepted(Next(s, evs[0]), evs[1..]);
    }
  }

  lemma DupsStep(s: State, ev: Event)
    requires Inv(s) && Enabled(s, ev) && DupsAccepted(s)
    ensures DupsAccepted(Next(s, ev))
  {
    if ev.Go? {
      DupsGo(s, ev.i);
      AcceptedGrows(s, ev.i);
    } else if ev.Crash? && s.held.Some? {
      assert s.queue[Find(s.queue, s.held.value.id).value].id in s.accepted;
    }
  }

  lemma AcceptedGrows(s: State, i: nat)
    requires Inv(s) && Enabled(s, Go(i))
    ensures s.accepted <= GoStep(s, i).accepted
  {
    if FamilyOf(s.procs[i].pc) != Spawning {
      GetAlone(s, i);
      StoreStep(s, i);
    }
  }

  lemma DupsGo(s: State, i: nat)
    requires i < |s.procs|
    ensures GoStep(s, i).dups == s.dups
  {
  }

  /** Every accepted message is, once, a prompt, or waiting in the queue, or cancelled, or
      truncated; a crash adds at most one second copy of one message. */
  lemma NothingLostNothingRepeated(evs: seq<Event>)
    requires Valid(IDLE, evs)
    ensures var s := Run(IDLE, evs);
            forall x | x in s.accepted ::
              Count(MsgIds(s.timeline), x) + Waiting(s.queue, s.held)[x] + Count(s.cancelled, x) + Count(s.removed, x)
                  == 1 + Count(s.dups, x)
    ensures var s := Run(IDLE, evs);
            forall x | x !in s.accepted ::
              Count(MsgIds(s.timeline), x) + Waiting(s.queue, s.held)[x] + Count(s.cancelled, x) + Count(s.removed, x)
                  == 0
    ensures |Run(IDLE, evs).dups| <= CountCrashes(evs)
  {
    InvReached(evs);
    InvIdle();
    DupsBounded(IDLE, evs);
    DupsWereAccepted(IDLE, evs);
    var s := Run(IDLE, evs);
    forall x: nat
      ensures Count(MsgIds(s.timeline), x) + Waiting(s.queue, s.held)[x] + Count(s.cancelled, x) + Count(s.removed, x)
           == (if x in s.accepted then 1 else 0) + Count(s.dups, x) {
      NoDupCount(s.accepted, x);
      assert (multiset(s.accepted) + multiset(s.dups))[x]
          == (multiset(MsgIds(s.timeline)) + Waiting(s.queue, s.held) + multiset(s.cancelled + s.removed))[x];
      assert multiset(s.cancelled + s.removed) == multiset(s.cancelled) + multiset(s.removed);
    }
  }

  ghost predicate Pushing(s: State, i: nat) {
    i < |s.procs| && s.procs[i].pc.AddIngest? && (Owner(s, i) || s.lock == Some(i))
  }

  ghost predicate Deleting(s: State, i: nat, p: Prompt) {
    i < |s.procs| && s.procs[i].pc.TruncDelete? && p in s.procs[i].pc.rows
  }

  /** Whatever truncations and crashes do, stored prompts have distinct, rising numbers: an insert
      never meets a number that is taken. */
  lemma StoredNumbersRise(evs: seq<Event>)
    requires Valid(IDLE, evs)
    ensures var s := Run(IDLE, evs);
            && Rising(s.timeline)
            && forall i, k | 0 <= i < |s.procs| && s.procs[i].pc.AddInsert? && 0 <= k < |s.timeline| ::
                 s.timeline[k].num < s.procs[i].pc.num
  {
    InvIdle();
    RiseRun(IDLE, evs);
    var s := Run(IDLE, evs);
    assert forall i | 0 <= i < |s.procs| :: ReadsAbove(s.procs[i].pc, s.timeline);
  }

  /** While truncations keep their discipline, cached prompts are numbered 1..n in order although
      MAX and INSERT are two statements. The store begins with the same prompts; each one it holds
      beyond them is about to be cached by the adder that has the flag or the lock, or about to be
      deleted by a running truncation. While no truncation is deleting, the stored prompts are
      numbered 1..n too. */
  lemma PromptNumbersHaveNoGap(evs: seq<Event>)
    requires Valid(IDLE, evs) && AllSteady(IDLE, evs)
    ensures var s := Run(IDLE, evs); Numbered(s.cache) && s.cache <= s.timeline
    ensures var s := Run(IDLE, evs);
            forall k | |s.cache| <= k < |s.timeline| :: Accounted(s, k)
    ensures var s := Run(IDLE, evs); NobodyDeleting(s) ==> Numbered(s.timeline) && |s.timeline| <= |s.cache| + 1
  {
    NumReached(evs);
    NumbersInOrder(Run(IDLE, evs));
    forall k | |Run(IDLE, evs).cache| <= k < |Run(IDLE, evs).timeline| ensures Accounted(Run(IDLE, evs), k) {
      BeyondTheCache(Run(IDLE, evs), k);
    }
  }

  lemma NumReached(evs: seq<Event>)
    requires Valid(IDLE, evs) && AllSteady(IDLE, evs)
    ensures OwnInv(Run(IDLE, evs)) && NumInv(Run(IDLE, evs))
  {
    NumRun(IDLE, evs);
  }

  /** The stored prompt at `k` is about to be cached or about to be deleted. */
  ghost predicate Accounted(s: State, k: nat)
    requires k < |s.timeline|
  {
    exists i: nat :: (Pushing(s, i) && s.procs[i].pc.p == s.timeline[k]) || Deleting(s, i, s.timeline[k])
  }

  lemma NumbersInOrder(s: State)
    requires NumInv(s)
    ensures Numbered(s.cache) && s.cache <= s.timeline
    ensures NobodyDeleting(s) ==> Numbered(s.timeline) && |s.timeline| <= |s.cache| + 1
  {
    if NobodyDeleting(s) { NothingDoomed(s); }
  }

  lemma BeyondTheCache(s: State, k: nat)
    requires OwnInv(s) && NumInv(s) && |s.cache| <= k < |s.timeline|
    ensures Accounted(s, k)
  {
    var n := k - |s.cache|;
    var i := if s.landing.Some? then s.landing.value else s.doomed[n];
    assert ProcNum(s, i) && ProcOwn(s, i);
    if s.landing.Some? {
      assert Pushing(s, i);
    } else {
      OwnHolds(Extra(s.timeline, s.cache), s.doomed, n);
      assert Deleting(s, i, s.timeline[k]);
    }
  }

  lemma {:induction false} OwnHolds(rows: seq<Prompt>, owners: seq<nat>, k: nat)
    requires |rows| >= |owners| && k < |owners|
    ensures rows[k] in OwnRows(rows, owners, owners[k])
  {
    var n := |owners| - 1;
    if k < n { OwnHolds(rows[..n], owners[..n], k); }
  }

  /** At most one row is Running, and then exactly one process answers for it. */
  lemma AtMostOneRunning(evs: seq<Event>, a: nat, b: nat)
    requires Valid(IDLE, evs)
    requires a < |Run(IDLE, evs).queue| && b < |Run(IDLE, evs).queue|
    requires Run(IDLE, evs).queue[a].running && Run(IDLE, evs).queue[b].running
    ensures a == b
    ensures var s := Run(IDLE, evs);
            s.held.Some? && s.held.value.pid < |s.procs| && Grip(s.procs[s.held.value.pid].pc).Some?
  {
    InvReached(evs);
    var s := Run(IDLE, evs);
    assert ProcStore(s, s.held.value.pid);
  }

  lemma StillThere(t: State, x: nat)
    requires BooksOk(t) && t.held.None? && x in t.accepted && x !in t.cancelled && x !in t.removed
    ensures x in MsgIds(t.timeline) || x in Ids(t.queue)
  {
    assert x in multiset(t.accepted) + multiset(t.dups);
    assert x in multiset(MsgIds(t.timeline)) + Waiting(t.queue, t.held) + multiset(t.cancelled + t.removed);
    assert x !in multiset(t.cancelled + t.removed);
  }

  /** The popped row, once its prompt is stored. */
  function Landed(held: Option<Held>): multiset<nat> {
    if held.Some? && held.value.landed then multiset{held.value.id} else multiset{}
  }

  /** Whatever was going on when the server died, afterwards every accepted message that was
      not cancelled or truncated is a prompt or pending, and at most one is both. */
  lemma CrashLosesNothing(evs: seq<Event>)
    requires Valid(IDLE, evs)
    ensures var s := Run(IDLE, evs); var t := Reboot(s);
            && (forall x | x in s.accepted && x !in s.cancelled && x !in s.removed ::
                  x in MsgIds(t.timeline) || x in Ids(t.queue))
            && (forall k | 0 <= k < |t.queue| :: !t.queue[k].running)
            && Inv(t) && !t.flag && t.lock.None? && t.cache == t.timeline
    ensures var s := Run(IDLE, evs); var t := Reboot(s);
            Waiting(t.queue, t.held) == Waiting(s.queue, s.held) + Landed(s.held)
    ensures var s := Run(IDLE, evs); Numbered(Reboot(s).cache) <==> NextNum(s.timeline) == |s.timeline| + 1
  {
    InvReached(evs);
    AfterCrash(Run(IDLE, evs));
    StoredNumbersRise(evs);
    NumberedIffMaxIsCount(Run(IDLE, evs).timeline);
  }

  lemma AfterCrash(s: State)
    requires Inv(s)
    ensures var t := Reboot(s);
            && (forall x | x in s.accepted && x !in s.cancelled && x !in s.removed ::
                  x in MsgIds(t.timeline) || x in Ids(t.queue))
            && (forall k | 0 <= k < |t.queue| :: !t.queue[k].running)
            && Inv(t) && !t.flag && t.lock.None? && t.cache == t.timeline
            && Waiting(t.queue, t.held) == Waiting(s.queue, s.held) + Landed(s.held)
  {
    var t := Reboot(s);
    StoreCrash(s);
    RowsRecover(s.queue, s.held, s.accepted);
    forall x | x in s.accepted && x !in s.cancelled && x !in s.removed
        ensures x in MsgIds(t.timeline) || x in Ids(t.queue) {
      StillThere(t, x);
    }
  }
}
