/** How a gap in the numbering comes to stay: once a number in use is too high for the cache, every
    way on that cuts nothing more ends with a misnumbered cache. */
module Gaps {
  import opened Protocol
  import opened Ownership
  import opened Numbering
  import opened Termination

  predicate NobodyCutting(s: State) {
    forall j | 0 <= j < |s.procs| :: !s.procs[j].pc.TruncCut?
  }

  /** A number read for a prompt that is to be cached further down. */
  predicate TooHigh(pc: Pc, cached: nat) {
    (pc.AddInsert? && pc.num > cached + 1) || (pc.AddIngest? && pc.p.num > cached + 1)
  }

  ghost predicate Late(s: State, j: nat) {
    j < |s.procs| && TooHigh(s.procs[j].pc, |s.cache|)
  }

  /** The cache is misnumbered, or is about to be. */
  ghost predicate Spoilt(s: State) {
    !Numbered(s.cache) || exists j: nat :: Late(s, j)
  }

  lemma MisnumberedGrows(ps: seq<Prompt>, p: Prompt)
    requires !Numbered(ps) || p.num != |ps| + 1
    ensures !Numbered(ps + [p])
  {
    if !Numbered(ps) {
      var k :| 0 <= k < |ps| && ps[k].num != k + 1;
      assert (ps + [p])[k] == ps[k];
    } else {
      assert (ps + [p])[|ps|] == p;
    }
  }

  /** What a step does to the cache when it does not cut it. */
  predicate CacheMoved(s: State, i: nat, m: Move)
    requires i < |s.procs|
  {
    var pc := s.procs[i].pc;
    && !m.pc.TruncCut?
    && m.after.cache == (if pc.AddIngest? then s.cache + [pc.p] else s.cache)
    && (pc.AddInsert? ==> m.pc == AddIngest(pc.who, Prompt(pc.num, pc.m)))
    && (m.pc.TruncDelete? ==> pc.TruncDelete?)
  }

  lemma CacheStep(s: State, i: nat)
    requires i < |s.procs| && FamilyOf(s.procs[i].pc) !in {Ended, Spawning} && !s.procs[i].pc.TruncCut?
    ensures CacheMoved(s, i, Step(s, i))
  {
    match FamilyOf(s.procs[i].pc)
    case Adding => CacheAdd(s, i);
    case Truncating => CacheDelete(s, i);
    case _ => QuietStep(s, i);
  }

  lemma CacheAdd(s: State, i: nat)
    requires i < |s.procs| && FamilyOf(s.procs[i].pc) == Adding
    ensures CacheMoved(s, i, GoAdd(s, i))
  {
  }

  lemma CacheDelete(s: State, i: nat)
    requires i < |s.procs| && s.procs[i].pc.TruncDelete?
    ensures CacheMoved(s, i, GoCut(s, i))
  {
  }

  lemma SpoiltMove(s: State, i: nat, m: Move)
    requires OwnInv(s) && Spoilt(s) && i < |s.procs| && CacheMoved(s, i, m)
    ensures Spoilt(Set(m.after.(procs := s.procs), i, m.pc))
  {
    var t := Set(m.after.(procs := s.procs), i, m.pc);
    if Numbered(s.cache) {
      var j: nat :| Late(s, j);
      if i != j && s.procs[i].pc.AddIngest? { NobodyElseAdds(s, i, j); }
      if s.procs[i].pc.AddIngest? { MisnumberedGrows(s.cache, s.procs[i].pc.p); } else { assert Late(t, j); }
    } else if s.procs[i].pc.AddIngest? {
      MisnumberedGrows(s.cache, s.procs[i].pc.p);
    }
  }

  lemma SpoiltStep(s: State, i: nat) returns (t: State)
    requires OwnInv(s) && Spoilt(s) && NobodyCutting(s) && Enabled(s, Go(i)) && Disciplined(s, Go(i))
    ensures t == Next(s, Go(i)) && OwnInv(t) && Spoilt(t) && NobodyCutting(t)
  {
    t := GoStep(s, i);
    OwnStep(s, Go(i));
    if FamilyOf(s.procs[i].pc) == Spawning {
      if Numbered(s.cache) {
        var j: nat :| Late(s, j);
        assert Late(t, j);
      }
    } else {
      CacheStep(s, i);
      SpoiltMove(s, i, Step(s, i));
    }
  }

  /** A spoilt chat ends misnumbered under every schedule, careful or not. */
  lemma {:induction false} SpoiltEndsMisnumbered(s: State, evs: seq<Event>)
    requires OwnInv(s) && Spoilt(s) && NobodyCutting(s) && Valid(s, evs) && Internal(evs)
    requires NobodyMidway(Run(s, evs))
    ensures !Numbered(Run(s, evs).cache)
    decreases |evs|
  {
    if evs != [] {
      var t := SpoiltStep(s, evs[0].i);
      SpoiltEndsMisnumbered(t, evs[1..]);
    }
  }

  /** Without a truncation under way every schedule is careful. */
  lemma {:induction false} NoTruncationIsSteady(s: State, evs: seq<Event>)
    requires NobodyCutting(s) && NobodyDeleting(s) && Valid(s, evs) && Internal(evs)
    ensures AllSteady(s, evs)
    decreases |evs|
  {
    if evs != [] {
      var t := NoTruncationStep(s, evs[0].i);
      NoTruncationIsSteady(t, evs[1..]);
    }
  }

  lemma NoTruncationStep(s: State, i: nat) returns (t: State)
    requires NobodyCutting(s) && NobodyDeleting(s) && Enabled(s, Go(i))
    ensures t == Next(s, Go(i)) && NobodyCutting(t) && NobodyDeleting(t) && Steady(s, Go(i))
  {
    t := GoStep(s, i);
    if FamilyOf(s.procs[i].pc) != Spawning { CacheStep(s, i); }
  }

  // ----- the two steps that spoil -----------------------------------------------------------

  /** A cut of something while a prompt is being added. */
  lemma CutSpoils(s: State, i: nat)
    requires NumInv(s) && i < |s.procs| && s.procs[i].pc.TruncCut?
    requires CutFrom(s.cache, s.procs[i].pc.from) != [] && !NobodyMidway(s)
    ensures Spoilt(GoStep(s, i))
  {
    var j :| 0 <= j < |s.procs| && Midway(s.procs[j].pc);
    var k := CutSplits(s.cache, s.procs[i].pc.from);
    CutShape(s, i, k);
    MidwayNumber(s, j, k);
    assert GoStep(s, i).procs[j] == s.procs[j] && GoStep(s, i).cache == s.cache[..k];
    assert Late(GoStep(s, i), j);
  }

  lemma MidwayNumber(s: State, j: nat, k: nat)
    requires NumInv(s) && j < |s.procs| && Midway(s.procs[j].pc) && k < |s.cache|
    ensures TooHigh(s.procs[j].pc, k)
  {
    assert ProcNum(s, j);
    if s.procs[j].pc.AddIngest? { assert s.timeline[|s.cache|] == s.procs[j].pc.p; }
  }

  /** A read of MAX(seq) while cut prompts are still stored. */
  lemma AddSpoils(s: State, i: nat)
    requires NumInv(s) && i < |s.procs| && s.procs[i].pc.AddMax? && !NobodyDeleting(s)
    ensures Spoilt(GoStep(s, i))
  {
    var j :| 0 <= j < |s.procs| && s.procs[j].pc.TruncDelete?;
    assert ProcNum(s, j);
    assert s.doomed != [];
    CountedBelow(s.timeline);
    assert Late(GoStep(s, i), i);
  }

  lemma CountedBelow(ps: seq<Prompt>)
    requires Rising(ps)
    ensures NextNum(ps) >= |ps| + 1
  {
    if ps != [] { NumbersAtLeast(ps, |ps| - 1); }
  }
}
