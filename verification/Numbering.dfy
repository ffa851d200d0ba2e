/**
 The prompts. Stored numbers always rise. On steady runs the cache holds the first stored
 prompts, numbered 1..n, although numbers are read and inserted in two steps; what the store
 holds beyond them is the one prompt about to be cached, or what running truncations have still
 to delete.
 */
module Numbering {
  import opened Util
  import opened QueueStore
  import opened Protocol
  import opened Ownership

  predicate Numbered(ps: seq<Prompt>) {
    forall k | 0 <= k < |ps| :: ps[k].num == k + 1
  }

  predicate Rising(ps: seq<Prompt>) {
    && (forall i | 0 <= i < |ps| :: ps[i].num >= 1)
    && forall i, j | 0 <= i < j < |ps| :: ps[i].num < ps[j].num
  }

  /** Stored prompts beyond the cached ones. */
  function Extra(timeline: seq<Prompt>, cache: seq<Prompt>): seq<Prompt> {
    if |cache| <= |timeline| then timeline[|cache|..] else []
  }

  /** The rows whose deletion is process `i`'s. */
  function OwnRows(rows: seq<Prompt>, owners: seq<nat>, i: nat): seq<Prompt> {
    if owners == [] || |rows| < |owners| then []
    else
      var n := |owners| - 1;
      OwnRows(rows[..n], owners[..n], i) + if owners[n] == i then [rows[n]] else []
  }

  function Doomed(pc: Pc): seq<Prompt> {
    if pc.TruncDelete? then pc.rows else []
  }

  ghost predicate Kept(timeline: seq<Prompt>, cache: seq<Prompt>, doomed: seq<nat>, landing: bool) {
    && |timeline| == |cache| + |doomed| + (if landing then 1 else 0)
    && cache <= timeline && Numbered(cache) && Rising(timeline)
    && (landing ==> doomed == [] && Numbered(timeline))
  }

  predicate ProcNum(s: State, i: nat)
    requires i < |s.procs|
  {
    var pc := s.procs[i].pc;
    && Doomed(pc) == OwnRows(Extra(s.timeline, s.cache), s.doomed, i)
    && (pc.TruncDelete? ==> pc.rows != [])
    && (pc.AddInsert? ==> s.doomed == [] && pc.num == |s.timeline| + 1)
    && (pc.AddIngest? <==> s.landing == Some(i))
    && (pc.AddIngest? ==> s.timeline == s.cache + [pc.p])
  }

  ghost predicate NumInv(s: State) {
    && Kept(s.timeline, s.cache, s.doomed, s.landing.Some?)
    && (s.landing.Some? ==> s.landing.value < |s.procs|)
    && (forall k | 0 <= k < |s.doomed| :: s.doomed[k] < |s.procs|)
    && forall i | 0 <= i < |s.procs| :: ProcNum(s, i)
  }

  // ----- the discipline of truncations ------------------------------------------------------

  /** Between reading MAX(seq) and pushing the prompt to the cache. */
  predicate Midway(pc: Pc) {
    pc.AddInsert? || pc.AddIngest?
  }

  predicate NobodyMidway(s: State) {
    forall j | 0 <= j < |s.procs| :: !Midway(s.procs[j].pc)
  }

  /** No truncation has cut the cache and still rows to delete. */
  predicate NobodyDeleting(s: State) {
    forall j | 0 <= j < |s.procs| :: !s.procs[j].pc.TruncDelete?
  }

  /** A truncation does not cut prompts while one is being added, and no number is read while cut
      prompts are still stored. The server dies only while MAX(seq) equals the number of stored
      prompts. */
  predicate Steady(s: State, ev: Event) {
    match ev
    case Go(i) =>
      i < |s.procs| ==>
        && (s.procs[i].pc.AddMax? ==> NobodyDeleting(s))
        && (s.procs[i].pc.TruncCut? ==> CutFrom(s.cache, s.procs[i].pc.from) == [] || NobodyMidway(s))
    case Crash => NextNum(s.timeline) == |s.timeline| + 1
    case _ => true
  }

  ghost predicate AllSteady(s: State, evs: seq<Event>)
    requires Valid(s, evs)
    decreases |evs|
  {
    evs == [] || (Steady(s, evs[0]) && AllSteady(Next(s, evs[0]), evs[1..]))
  }

  // ----- rows and their owners --------------------------------------------------------------

  lemma {:induction false} OwnRowsConcat(a: seq<Prompt>, oa: seq<nat>, b: seq<Prompt>, ob: seq<nat>, i: nat)
    requires |a| == |oa| && |b| == |ob|
    ensures OwnRows(a + b, oa + ob, i) == OwnRows(a, oa, i) + OwnRows(b, ob, i)
  {
    if b == [] {
      assert a + b == a && oa + ob == oa;
    } else {
      var n := |b| - 1;
      OwnRowsConcat(a, oa, b[..n], ob[..n], i);
      assert (a + b)[..|a| + n] == a + b[..n] && (oa + ob)[..|a| + n] == oa + ob[..n];
    }
  }

  lemma {:induction false} OwnRowsTagged(rows: seq<Prompt>, pid: nat, i: nat)
    ensures OwnRows(rows, Tags(|rows|, pid), i) == if i == pid then rows else []
  {
    if rows != [] {
      var n := |rows| - 1;
      OwnRowsTagged(rows[..n], pid, i);
      assert Tags(n + 1, pid)[..n] == Tags(n, pid);
    }
  }

  lemma {:induction false} FirstOwn(rows: seq<Prompt>, owners: seq<nat>, i: nat) returns (k: nat)
    requires |rows| == |owners| && OwnRows(rows, owners, i) != []
    ensures k < |owners| && owners[k] == i && rows[k] == OwnRows(rows, owners, i)[0]
    ensures forall j | 0 <= j < k :: owners[j] != i
  {
    var n := |owners| - 1;
    if OwnRows(rows[..n], owners[..n], i) != [] {
      k := FirstOwn(rows[..n], owners[..n], i);
    } else {
      k := n;
      forall j | 0 <= j < n ensures owners[j] != i {
        if owners[j] == i { SomeOwn(rows[..n], owners[..n], j); }
      }
    }
  }

  lemma {:induction false} SomeOwn(rows: seq<Prompt>, owners: seq<nat>, k: nat)
    requires |rows| >= |owners| && k < |owners|
    ensures OwnRows(rows, owners, owners[k]) != []
  {
    var n := |owners| - 1;
    if k < n { SomeOwn(rows[..n], owners[..n], k); }
  }

  lemma {:induction false} NoneOwn(rows: seq<Prompt>, owners: seq<nat>, i: nat)
    requires forall j | 0 <= j < |owners| :: owners[j] != i
    ensures OwnRows(rows, owners, i) == []
  {
    if owners != [] && |rows| >= |owners| {
      var n := |owners| - 1;
      NoneOwn(rows[..n], owners[..n], i);
    }
  }

  lemma RemoveOwn(rows: seq<Prompt>, owners: seq<nat>, k: nat, i: nat)
    requires |rows| == |owners| && k < |owners| && forall j | 0 <= j < k :: owners[j] != owners[k]
    ensures var own := OwnRows(rows, owners, i);
            && (i == owners[k] ==> own != [] && own[0] == rows[k])
            && OwnRows(RemoveAt(rows, k), RemoveAt(owners, k), i) == if i == owners[k] then own[1..] else own
  {
    var left, right := OwnRows(rows[..k], owners[..k], i), OwnRows(rows[k + 1..], owners[k + 1..], i);
    SplitOwn(rows, owners, k, i);
    OwnRowsConcat(rows[..k], owners[..k], rows[k + 1..], owners[k + 1..], i);
    assert OwnRows(RemoveAt(rows, k), RemoveAt(owners, k), i) == left + right;
    if i == owners[k] {
      NoneOwn(rows[..k], owners[..k], i);
      TailOfOne(rows[k], right);
    }
  }

  lemma TailOfOne(p: Prompt, ps: seq<Prompt>)
    ensures [] + [p] + ps == [p] + ps && ([p] + ps)[1..] == ps && [] + ps == ps
  {
  }

  lemma SplitOwn(rows: seq<Prompt>, owners: seq<nat>, k: nat, i: nat)
    requires |rows| == |owners| && k < |owners|
    ensures OwnRows(rows, owners, i)
         == OwnRows(rows[..k], owners[..k], i) + (if i == owners[k] then [rows[k]] else [])
            + OwnRows(rows[k + 1..], owners[k + 1..], i)
  {
    var left, ol := rows[..k + 1], owners[..k + 1];
    assert left[..k] == rows[..k] && ol[..k] == owners[..k];
    OwnRowsConcat(left, ol, rows[k + 1..], owners[k + 1..], i);
    assert rows == left + rows[k + 1..] && owners == ol + owners[k + 1..];
  }

  // ----- numbers ----------------------------------------------------------------------------

  lemma NumberedRises(ps: seq<Prompt>)
    requires Numbered(ps)
    ensures Rising(ps) && NextNum(ps) == |ps| + 1
  {
  }

  /** Rising numbers are 1..n exactly when the highest is the count. */
  lemma NumberedIffMaxIsCount(ps: seq<Prompt>)
    requires Rising(ps)
    ensures Numbered(ps) <==> NextNum(ps) == |ps| + 1
  {
    if NextNum(ps) == |ps| + 1 && ps != [] {
      forall k | 0 <= k < |ps| ensures ps[k].num == k + 1 {
        NumbersAtLeast(ps, k);
        NumbersAtMost(ps, k);
      }
    } else if Numbered(ps) {
      NumberedRises(ps);
    }
  }

  lemma {:induction false} NumbersAtLeast(ps: seq<Prompt>, k: nat)
    requires Rising(ps) && k < |ps|
    ensures ps[k].num >= k + 1
  {
    if k > 0 { NumbersAtLeast(ps, k - 1); assert ps[k - 1].num < ps[k].num; }
  }

  lemma {:induction false} NumbersAtMost(ps: seq<Prompt>, k: nat)
    requires Rising(ps) && k < |ps|
    ensures ps[k].num + (|ps| - 1 - k) < NextNum(ps)
    decreases |ps| - k
  {
    if k < |ps| - 1 { NumbersAtMost(ps, k + 1); assert ps[k].num < ps[k + 1].num; }
  }

  /** A cut takes a tail of the cache. */
  lemma CutSplits(ps: seq<Prompt>, from: nat) returns (k: nat)
    requires Numbered(ps)
    ensures k <= |ps| && KeepBelow(ps, from) == ps[..k] && CutFrom(ps, from) == ps[k..]
  {
    k := if from == 0 then 0 else if from - 1 <= |ps| then from - 1 else |ps|;
    CutAt(ps, from, k);
  }

  lemma {:induction false} CutAt(ps: seq<Prompt>, from: nat, k: nat)
    requires k <= |ps| && forall j | 0 <= j < |ps| :: ps[j].num < from <==> j < k
    ensures KeepBelow(ps, from) == ps[..k] && CutFrom(ps, from) == ps[k..]
  {
    if ps != [] {
      var n := |ps| - 1;
      CutAt(ps[..n], from, if k <= n then k else n);
      assert ps == ps[..n] + [ps[n]];
      assert ps[n].num < from <==> n < k;
      if k <= n { assert ps[k..] == ps[..n][k..] + [ps[n]]; }
    }
  }

  // ----- steps that leave the prompts alone -------------------------------------------------

  /** Neither adding nor deleting. */
  predicate Aloof(pc: Pc) {
    !pc.AddInsert? && !pc.AddIngest? && !pc.TruncDelete?
  }

  predicate Untouched(s: State, m: Move) {
    && m.after.timeline == s.timeline && m.after.cache == s.cache
    && m.after.doomed == s.doomed && m.after.landing == s.landing && Aloof(m.pc) && !m.pc.TruncCut?
  }

  lemma NumQuiet(s: State, i: nat, m: Move)
    requires NumInv(s) && i < |s.procs| && Aloof(s.procs[i].pc) && Untouched(s, m)
    ensures NumInv(Set(m.after.(procs := s.procs), i, m.pc))
  {
    var t := Set(m.after.(procs := s.procs), i, m.pc);
    forall j | 0 <= j < |s.procs| ensures ProcNum(t, j) { assert ProcNum(s, j) && ProcNum(s, i); }
  }

  lemma QuietSend(s: State, i: nat)
    requires i < |s.procs| && FamilyOf(s.procs[i].pc) == Sending
    ensures Untouched(s, GoSend(s, i))
  {
  }

  lemma QuietClaim(s: State, i: nat)
    requires i < |s.procs| && FamilyOf(s.procs[i].pc) == Claiming
    ensures Untouched(s, GoClaim(s, i))
  {
  }

  lemma QuietRun(s: State, i: nat)
    requires i < |s.procs| && FamilyOf(s.procs[i].pc) == Running
    ensures Untouched(s, GoRun(s, i))
  {
  }

  lemma QuietKick(s: State, i: nat)
    requires i < |s.procs| && FamilyOf(s.procs[i].pc) == Kicking
    ensures Untouched(s, GoKick(s, i))
  {
  }

  lemma QuietDrain(s: State, i: nat)
    requires i < |s.procs| && FamilyOf(s.procs[i].pc) == Draining
    ensures Untouched(s, GoDrain(s, i))
  {
  }

  lemma QuietClear(s: State, i: nat)
    requires i < |s.procs| && FamilyOf(s.procs[i].pc) == Clearing
    ensures Untouched(s, GoClear(s, i))
  {
  }

  lemma QuietStep(s: State, i: nat)
    requires i < |s.procs| && FamilyOf(s.procs[i].pc) !in {Ended, Spawning, Adding, Truncating}
    ensures Untouched(s, Step(s, i)) && Aloof(s.procs[i].pc)
  {
    match FamilyOf(s.procs[i].pc)
    case Sending => QuietSend(s, i);
    case Claiming => QuietClaim(s, i);
    case Running => QuietRun(s, i);
    case Kicking => QuietKick(s, i);
    case Draining => QuietDrain(s, i);
    case Clearing => QuietClear(s, i);
  }

  lemma NumSpawn(s: State, i: nat, task: Pc)
    requires NumInv(s) && i < |s.procs| && FamilyOf(s.procs[i].pc) == Spawning && task in {DrainMode, Turn}
    ensures NumInv(Spawn(s, i, task))
  {
    var t := Spawn(s, i, task);
    NoneOwn(Extra(s.timeline, s.cache), s.doomed, |s.procs|);
    forall j | 0 <= j < |t.procs| ensures ProcNum(t, j) {
      if j < |s.procs| { assert ProcNum(s, j); }
    }
  }

  // ----- adding -----------------------------------------------------------------------------

  lemma NothingDoomed(s: State)
    requires NumInv(s) && NobodyDeleting(s)
    ensures s.doomed == []
  {
    if s.doomed != [] {
      var j := s.doomed[0];
      assert ProcNum(s, j) && !s.procs[j].pc.TruncDelete?;
      SomeOwn(Extra(s.timeline, s.cache), s.doomed, 0);
    }
  }

  /** Whoever adds is the only one between its read and its push. */
  lemma NobodyElseAdds(s: State, i: nat, j: nat)
    requires OwnInv(s) && i < |s.procs| && j < |s.procs| && i != j && FamilyOf(s.procs[i].pc) == Adding
    ensures FamilyOf(s.procs[j].pc) != Adding
  {
    if FamilyOf(s.procs[j].pc) == Adding { ExclUnique(s, i, j); }
  }

  lemma NumAddMax(s: State, i: nat)
    requires OwnInv(s) && NumInv(s) && i < |s.procs| && s.procs[i].pc.AddMax? && NobodyDeleting(s)
    ensures NumInv(Set(s, i, GoAdd(s, i).pc))
  {
    var t := Set(s, i, GoAdd(s, i).pc);
    NothingDoomed(s);
    if s.landing.Some? {
      assert ProcNum(s, s.landing.value) && ProcNum(s, i);
      NobodyElseAdds(s, i, s.landing.value);
    }
    assert s.timeline == s.cache;
    NumberedRises(s.timeline);
    forall j | 0 <= j < |s.procs| ensures ProcNum(t, j) { assert ProcNum(s, j); }
  }

  /** What a step of an adder does to the prompts. */
  predicate Added(s: State, i: nat, m: Move)
    requires i < |s.procs|
  {
    var t, pc := m.after, s.procs[i].pc;
    && t.doomed == s.doomed
    && (pc.AddInsert? ==> var p := Prompt(pc.num, pc.m);
          t.timeline == s.timeline + [p] && t.cache == s.cache && t.landing == Some(i) && m.pc == AddIngest(pc.who, p))
    && (pc.AddIngest? ==> t.timeline == s.timeline && t.cache == s.cache + [pc.p] && t.landing == None && Aloof(m.pc))
  }

  lemma AddShape(s: State, i: nat)
    requires i < |s.procs| && (s.procs[i].pc.AddInsert? || s.procs[i].pc.AddIngest?)
    ensures Added(s, i, GoAdd(s, i))
  {
  }

  lemma NumAddInsert(s: State, i: nat, m: Move)
    requires OwnInv(s) && NumInv(s) && i < |s.procs| && s.procs[i].pc.AddInsert? && Added(s, i, m)
    ensures NumInv(Set(m.after.(procs := s.procs), i, m.pc))
  {
    var t := Set(m.after.(procs := s.procs), i, m.pc);
    assert ProcNum(s, i);
    if s.landing.Some? {
      assert ProcNum(s, s.landing.value);
      NobodyElseAdds(s, i, s.landing.value);
    }
    KeptAdded(s.timeline, s.cache, Prompt(s.procs[i].pc.num, s.procs[i].pc.m));
    forall j | 0 <= j < |s.procs| ensures ProcNum(t, j) {
      assert ProcNum(s, j);
      if j != i { NobodyElseAdds(s, i, j); }
    }
  }

  lemma KeptAdded(timeline: seq<Prompt>, cache: seq<Prompt>, p: Prompt)
    requires Kept(timeline, cache, [], false) && p.num == |timeline| + 1
    ensures timeline == cache && Kept(timeline + [p], cache, [], true)
    ensures Extra(timeline + [p], cache) == [p] && OwnRows(Extra(timeline + [p], cache), [], 0) == []
  {
    assert timeline == cache;
    NumberedRises(timeline + [p]);
  }

  lemma NumAddIngest(s: State, i: nat, m: Move)
    requires OwnInv(s) && NumInv(s) && i < |s.procs| && s.procs[i].pc.AddIngest? && Added(s, i, m)
    ensures NumInv(Set(m.after.(procs := s.procs), i, m.pc))
  {
    var t := Set(m.after.(procs := s.procs), i, m.pc);
    assert ProcNum(s, i);
    forall j | 0 <= j < |s.procs| ensures ProcNum(t, j) {
      assert ProcNum(s, j);
      if j != i { NobodyElseAdds(s, i, j); }
    }
  }

  // ----- truncating -------------------------------------------------------------------------

  lemma NobodyLanding(s: State)
    requires NumInv(s) && NobodyMidway(s)
    ensures s.landing.None?
  {
    var j := if s.landing.Some? then s.landing.value else 0;
    assert j < |s.procs| ==> ProcNum(s, j) && !Midway(s.procs[j].pc);
  }

  lemma CutShape(s: State, i: nat, k: nat)
    requires i < |s.procs| && s.procs[i].pc.TruncCut? && k <= |s.cache|
    requires KeepBelow(s.cache, s.procs[i].pc.from) == s.cache[..k]
        && CutFrom(s.cache, s.procs[i].pc.from) == s.cache[k..]
    ensures GoCut(s, i) == Move(s.(cache := s.cache[..k], doomed := Tags(|s.cache| - k, i) + s.doomed),
                                if k == |s.cache| then Done else TruncDelete(s.cache[k..]))
  {
  }

  lemma NumCut(s: State, i: nat)
    requires NumInv(s) && i < |s.procs| && s.procs[i].pc.TruncCut?
    requires CutFrom(s.cache, s.procs[i].pc.from) == [] || NobodyMidway(s)
    ensures var m := GoCut(s, i); NumInv(Set(m.after.(procs := s.procs), i, m.pc))
  {
    var k := CutSplits(s.cache, s.procs[i].pc.from);
    CutShape(s, i, k);
    if k == |s.cache| {
      assert s.cache[..k] == s.cache && Tags(0, i) + s.doomed == s.doomed;
      NumQuiet(s, i, Move(s, Done));
    } else {
      assert s.cache[k..] != [];
      NobodyLanding(s);
      CutMoves(s, i, k);
    }
  }

  lemma CutMoves(s: State, i: nat, k: nat)
    requires NumInv(s) && i < |s.procs| && s.procs[i].pc.TruncCut? && s.landing.None? && NobodyMidway(s)
        && k < |s.cache|
    ensures var t := s.(cache := s.cache[..k], doomed := Tags(|s.cache| - k, i) + s.doomed);
            NumInv(Set(t, i, TruncDelete(s.cache[k..])))
  {
    var cut, rest := s.cache[k..], Extra(s.timeline, s.cache);
    var t := Set(s.(cache := s.cache[..k], doomed := Tags(|cut|, i) + s.doomed), i, TruncDelete(cut));
    assert Extra(t.timeline, t.cache) == cut + rest;
    forall j | 0 <= j < |s.procs| ensures ProcNum(t, j) {
      assert ProcNum(s, j) && !Midway(s.procs[j].pc);
      OwnRowsConcat(cut, Tags(|cut|, i), rest, s.doomed, j);
      OwnRowsTagged(cut, i, j);
      assert j == i ==> cut + [] == cut;
      assert j != i ==> [] + OwnRows(rest, s.doomed, j) == OwnRows(rest, s.doomed, j);
    }
  }

  lemma RisingRemoved(ps: seq<Prompt>, k: nat)
    requires Rising(ps) && k < |ps|
    ensures Rising(RemoveAt(ps, k))
  {
  }

  lemma FoundAt(ps: seq<Prompt>, k: nat)
    requires Rising(ps) && k < |ps|
    ensures FindPrompt(ps, ps[k]) == Some(k)
  {
    var f := FindPrompt(ps, ps[k]);
    assert ps[k] in ps;
    assert forall j | 0 <= j < |ps| && ps[j] == ps[k] :: j == k;
  }

  lemma DeleteShape(s: State, i: nat, k: nat)
    requires i < |s.procs| && s.procs[i].pc.TruncDelete? && s.procs[i].pc.rows != [] && k < |s.doomed|
    requires FindPrompt(s.timeline, s.procs[i].pc.rows[0]) == Some(|s.cache| + k)
    ensures var rows := s.procs[i].pc.rows;
            GoCut(s, i) == Move(s.(timeline := RemoveAt(s.timeline, |s.cache| + k), doomed := RemoveAt(s.doomed, k),
                                   removed := s.removed + [rows[0].msg.id]),
                                AfterDelete(rows))
  {
  }

  lemma NumDelete(s: State, i: nat)
    requires NumInv(s) && i < |s.procs| && s.procs[i].pc.TruncDelete?
    ensures var m := GoCut(s, i); NumInv(Set(m.after.(procs := s.procs), i, m.pc))
  {
    var extra := Extra(s.timeline, s.cache);
    assert ProcNum(s, i);
    assert s.doomed != [];
    var k := FirstOwn(extra, s.doomed, i);
    FoundAt(s.timeline, |s.cache| + k);
    DeleteShape(s, i, k);
    var m := GoCut(s, i);
    DeleteMoves(s, Set(m.after.(procs := s.procs), i, m.pc), i, k);
  }

  lemma KeptDeleted(timeline: seq<Prompt>, cache: seq<Prompt>, doomed: seq<nat>, k: nat)
    requires Kept(timeline, cache, doomed, false) && k < |doomed|
    ensures Kept(RemoveAt(timeline, |cache| + k), cache, RemoveAt(doomed, k), false)
    ensures Extra(RemoveAt(timeline, |cache| + k), cache) == RemoveAt(Extra(timeline, cache), k)
  {
    RisingRemoved(timeline, |cache| + k);
    var rest, extra := RemoveAt(timeline, |cache| + k), Extra(timeline, cache);
    assert |Extra(rest, cache)| == |RemoveAt(extra, k)|;
    assert forall h | 0 <= h < |rest| - |cache| :: Extra(rest, cache)[h] == RemoveAt(extra, k)[h];
  }

  /** What each process has left to delete when `i` has deleted its first row. */
  lemma LeftRows(s: State, i: nat, k: nat, j: nat)
    requires i < |s.procs| && j < |s.procs| && ProcNum(s, i) && ProcNum(s, j)
    requires |Extra(s.timeline, s.cache)| == |s.doomed| && k < |s.doomed| && s.doomed[k] == i
    requires forall h | 0 <= h < k :: s.doomed[h] != i
    ensures Doomed(s.procs[i].pc) != []
    ensures OwnRows(RemoveAt(Extra(s.timeline, s.cache), k), RemoveAt(s.doomed, k), j)
         == if j == i then Doomed(s.procs[i].pc)[1..] else Doomed(s.procs[j].pc)
  {
    RemoveOwn(Extra(s.timeline, s.cache), s.doomed, k, i);
    RemoveOwn(Extra(s.timeline, s.cache), s.doomed, k, j);
  }

  function AfterDelete(rows: seq<Prompt>): Pc
    requires rows != []
  {
    if rows[1..] == [] then Done else TruncDelete(rows[1..])
  }

  lemma DeleteMoves(s: State, t: State, i: nat, k: nat)
    requires NumInv(s) && i < |s.procs| && s.procs[i].pc.TruncDelete? && s.procs[i].pc.rows != []
    requires k < |s.doomed| && s.doomed[k] == i && forall j | 0 <= j < k :: s.doomed[j] != i
    requires t.timeline == RemoveAt(s.timeline, |s.cache| + k) && t.doomed == RemoveAt(s.doomed, k)
    requires t.cache == s.cache && t.landing == s.landing
    requires t.procs == s.procs[i := s.procs[i].(pc := AfterDelete(s.procs[i].pc.rows))]
    ensures NumInv(t)
  {
    KeptDeleted(s.timeline, s.cache, s.doomed, k);
    assert ProcNum(s, i);
    forall j | 0 <= j < |s.procs|
      ensures Doomed(t.procs[j].pc) == OwnRows(Extra(t.timeline, t.cache), t.doomed, j)
      ensures StaysOrDeletes(s.procs[j].pc, t.procs[j].pc) {
      assert ProcNum(s, j);
      LeftRows(s, i, k, j);
      DeletedPc(s.procs[j].pc, t.procs[j].pc, i == j);
    }
    RowsChanged(s, t);
  }

  lemma DeletedPc(was: Pc, now: Pc, deletes: bool)
    requires deletes ==> was.TruncDelete? && was.rows != [] && now == AfterDelete(was.rows)
    requires !deletes ==> now == was
    ensures StaysOrDeletes(was, now) && Doomed(now) == if deletes then Doomed(was)[1..] else Doomed(was)
  {
  }

  /** While rows are doomed nobody adds, so only the deleting processes look at them. */
  lemma RowsChanged(s: State, t: State)
    requires NumInv(s) && s.doomed != [] && t.cache == s.cache && t.landing == s.landing && |t.procs| == |s.procs|
    requires Kept(t.timeline, t.cache, t.doomed, false) && forall k | 0 <= k < |t.doomed| :: t.doomed[k] < |t.procs|
    requires forall j | 0 <= j < |t.procs| ::
               Doomed(t.procs[j].pc) == OwnRows(Extra(t.timeline, t.cache), t.doomed, j)
    requires forall j | 0 <= j < |t.procs| :: StaysOrDeletes(s.procs[j].pc, t.procs[j].pc)
    ensures NumInv(t)
  {
    forall j | 0 <= j < |t.procs| ensures ProcNum(t, j) {
      assert ProcNum(s, j) && StaysOrDeletes(s.procs[j].pc, t.procs[j].pc);
    }
  }

  predicate StaysOrDeletes(was: Pc, now: Pc) {
    now == was || now.Done? || (now.TruncDelete? && now.rows != [])
  }

  // ----- every step -------------------------------------------------------------------------

  lemma NumGo(s: State, i: nat)
    requires OwnInv(s) && NumInv(s) && Enabled(s, Go(i)) && Steady(s, Go(i))
    ensures NumInv(GoStep(s, i))
  {
    var family := FamilyOf(s.procs[i].pc);
    if family == Spawning { NumSpawn(s, i, if s.procs[i].pc.SpawnDrain? then DrainMode else Turn); }
    else if family == Adding { NumAdd(s, i); }
    else if family == Truncating { NumTruncate(s, i); }
    else { QuietStep(s, i); NumQuiet(s, i, Step(s, i)); }
  }

  lemma NumTruncate(s: State, i: nat)
    requires NumInv(s) && i < |s.procs| && FamilyOf(s.procs[i].pc) == Truncating
    requires s.procs[i].pc.TruncCut? ==> CutFrom(s.cache, s.procs[i].pc.from) == [] || NobodyMidway(s)
    ensures var m := GoCut(s, i); NumInv(Set(m.after.(procs := s.procs), i, m.pc))
  {
    if s.procs[i].pc.TruncCut? { NumCut(s, i); } else { NumDelete(s, i); }
  }

  lemma NumAdd(s: State, i: nat)
    requires OwnInv(s) && NumInv(s) && i < |s.procs| && FamilyOf(s.procs[i].pc) == Adding
    requires s.procs[i].pc.AddMax? ==> NobodyDeleting(s)
    ensures var m := GoAdd(s, i); NumInv(Set(m.after.(procs := s.procs), i, m.pc))
  {
    match s.procs[i].pc
    case AddMax(_, _) => NumAddMax(s, i);
    case AddInsert(_, _, _) => AddShape(s, i); NumAddInsert(s, i, GoAdd(s, i));
    case AddIngest(_, _) => AddShape(s, i); NumAddIngest(s, i, GoAdd(s, i));
  }

  lemma NumArrive(s: State, req: Request)
    requires NumInv(s) && Enabled(s, Arrive(req))
    ensures NumInv(Next(s, Arrive(req)))
  {
    var t := Next(s, Arrive(req));
    NoneOwn(Extra(s.timeline, s.cache), s.doomed, |s.procs|);
    forall j | 0 <= j < |t.procs| ensures ProcNum(t, j) {
      if j < |s.procs| { assert ProcNum(s, j); }
    }
  }

  /** Steps that only change queue rows or the list of cancelled messages. */
  lemma NumRows(s: State, q: seq<Row>, cancelled: seq<nat>)
    requires NumInv(s)
    ensures NumInv(s.(queue := q, cancelled := cancelled))
  {
    forall j | 0 <= j < |s.procs| ensures ProcNum(s.(queue := q, cancelled := cancelled), j) { assert ProcNum(s, j); }
  }

  lemma NumCrash(s: State)
    requires NumInv(s) && NextNum(s.timeline) == |s.timeline| + 1
    ensures NumInv(Reboot(s))
  {
    NumberedIffMaxIsCount(s.timeline);
    forall j | 0 <= j < |s.procs| ensures ProcNum(Reboot(s), j) {
    }
  }

  lemma NumStep(s: State, ev: Event)
    requires OwnInv(s) && NumInv(s) && Enabled(s, ev) && Steady(s, ev)
    ensures NumInv(Next(s, ev))
  {
    match ev
    case Arrive(req) => NumArrive(s, req);
    case Go(i) => NumGo(s, i);
    case Cancel(id) => NumRows(s, CancelStep(s, id).queue, CancelStep(s, id).cancelled);
    case Edit(id, body) => NumRows(s, UpdateBody(s.queue, id, body), s.cancelled);
    case Reordering(ids) => NumRows(s, Reorder(s.queue, ids), s.cancelled);
    case Crash => NumCrash(s);
  }

  lemma {:induction false} NumRun(s: State, evs: seq<Event>)
    requires OwnInv(s) && NumInv(s) && Valid(s, evs) && AllSteady(s, evs)
    ensures OwnInv(Run(s, evs)) && NumInv(Run(s, evs))
    decreases |evs|
  {
    if evs != [] {
      OwnStep(s, evs[0]);
      NumStep(s, evs[0]);
      NumRun(Next(s, evs[0]), evs[1..]);
    }
  }

  // ----- without that discipline ------------------------------------------------------------

  /** Stored numbers rise, and a number already read is above them all. */
  ghost predicate RiseInv(s: State) {
    && Rising(s.timeline)
    && forall i | 0 <= i < |s.procs| :: ReadsAbove(s.procs[i].pc, s.timeline)
  }

  predicate ReadsAbove(pc: Pc, timeline: seq<Prompt>) {
    pc.AddInsert? ==> pc.num >= 1 && forall k | 0 <= k < |timeline| :: timeline[k].num < pc.num
  }

  /** The step keeps, drops or appends one prompt, and where it appends nobody else has read. */
  predicate RiseMoved(s: State, i: nat, m: Move)
    requires i < |s.procs|
  {
    && (m.after.timeline == s.timeline
        || (exists k | 0 <= k < |s.timeline| :: m.after.timeline == RemoveAt(s.timeline, k))
        || (s.procs[i].pc.AddInsert?
            && m.after.timeline == s.timeline + [Prompt(s.procs[i].pc.num, s.procs[i].pc.m)]))
    && ReadsAbove(m.pc, m.after.timeline)
  }

  lemma RiseAdd(s: State, i: nat)
    requires RiseInv(s) && i < |s.procs| && FamilyOf(s.procs[i].pc) == Adding
    ensures RiseMoved(s, i, GoAdd(s, i))
  {
    if s.procs[i].pc.AddMax? { NextNumPositive(s.timeline); }
  }

  lemma NextNumPositive(ps: seq<Prompt>)
    ensures NextNum(ps) >= 1
  {
  }

  lemma RiseCut(s: State, i: nat)
    requires i < |s.procs| && FamilyOf(s.procs[i].pc) == Truncating
    ensures RiseMoved(s, i, GoCut(s, i))
  {
    if s.procs[i].pc.TruncDelete? && s.procs[i].pc.rows != [] {
      var k := FindPrompt(s.timeline, s.procs[i].pc.rows[0]);
      assert k.Some? ==> Erase(s, s.procs[i].pc.rows[0]).timeline == RemoveAt(s.timeline, k.value);
    }
  }

  lemma RiseFamilies(s: State, i: nat)
    requires RiseInv(s) && i < |s.procs| && FamilyOf(s.procs[i].pc) !in {Ended, Spawning}
    ensures RiseMoved(s, i, Step(s, i))
  {
    match FamilyOf(s.procs[i].pc)
    case Adding => RiseAdd(s, i);
    case Truncating => RiseCut(s, i);
    case _ => QuietStep(s, i);
  }

  lemma RiseApply(s: State, i: nat, m: Move)
    requires OwnInv(s) && RiseInv(s) && i < |s.procs| && RiseMoved(s, i, m)
    ensures RiseInv(Set(m.after.(procs := s.procs), i, m.pc))
  {
    var t := Set(m.after.(procs := s.procs), i, m.pc);
    forall j | 0 <= j < |s.procs| ensures ReadsAbove(t.procs[j].pc, t.timeline) {
      if j != i && s.procs[i].pc.AddInsert? { NobodyElseAdds(s, i, j); }
    }
  }

  lemma RiseStep(s: State, ev: Event)
    requires OwnInv(s) && RiseInv(s) && Enabled(s, ev)
    ensures RiseInv(Next(s, ev))
  {
    if ev.Go? && FamilyOf(s.procs[ev.i].pc) != Spawning {
      RiseFamilies(s, ev.i);
      RiseApply(s, ev.i, Step(s, ev.i));
    }
  }

  lemma {:induction false} RiseRun(s: State, evs: seq<Event>)
    requires OwnInv(s) && RiseInv(s) && Valid(s, evs)
    ensures RiseInv(Run(s, evs))
    decreases |evs|
  {
    if evs != [] {
      OwnStep(s, evs[0]);
      RiseStep(s, evs[0]);
      RiseRun(Next(s, evs[0]), evs[1..]);
    }
  }
}
