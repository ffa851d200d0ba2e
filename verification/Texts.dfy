/** What a message says: from its arrival, through edits, pops, crashes and restarts, to its prompt.
    The texts are read off the events alone. */
module Texts {
  import opened Util
  import opened QueueStore
  import opened Protocol
  import opened Ownership
  import opened Ledger
  import opened Invariant

  /** The texts each message has had, latest last, by the process that brought it. */
  type Heard = map<nat, seq<string>>

  function TextOf(req: Request): Option<string> {
    match req
    case Send(body) => Some(body)
    case Tick(body) => Some(body)
    case Legacy(body) => Some(body)
    case Post(body) => Some(body)
    case _ => None
  }

  predicate IsPending(q: seq<Row>, id: nat) {
    exists k | 0 <= k < |q| :: q[k].id == id && !q[k].running
  }

  /** An arrival brings a text; an edit that finds the message pending gives it another. */
  function Hear(h: Heard, s: State, ev: Event): Heard {
    match ev
    case Arrive(req) => if TextOf(req).Some? then h[|s.procs| := [TextOf(req).value]] else h
    case Edit(id, body) => if id in h && IsPending(s.queue, id) then h[id := h[id] + [body]] else h
    case _ => h
  }

  ghost function Hearing(h: Heard, s: State, evs: seq<Event>): Heard
    requires Valid(s, evs)
    decreases |evs|
  {
    if evs == [] then h else Hearing(Hear(h, s, evs[0]), Next(s, evs[0]), evs[1..])
  }

  /** The message says what was last heard. */
  predicate Says(h: Heard, id: nat, body: string) {
    id in h && h[id] != [] && h[id][|h[id]| - 1] == body
  }

  /** The prompt says what its message said when it was taken up, and unless a crash put the message
      back in the queue, that is what was last heard of it. */
  predicate Quotes(h: Heard, dups: seq<nat>, p: Prompt) {
    && p.msg.id in h && p.msg.body in h[p.msg.id]
    && (p.msg.id !in dups ==> Says(h, p.msg.id, p.msg.body))
  }

  /** The message was a prompt at some time. */
  predicate WasStored(s: State, id: nat) {
    id in MsgIds(s.timeline) || id in s.removed
  }

  /** The message the process is to store, as a row or as a prompt. */
  function Loaded(pc: Pc): Option<Msg> {
    match pc
    case TickCheck(m) => Some(m)
    case SendLock(m) => Some(m)
    case SendRead(m) => Some(m)
    case EnqMax(m, _) => Some(m)
    case EnqInsert(m, _, _) => Some(m)
    case SendClaim(m) => Some(m)
    case AddMax(_, m) => Some(m)
    case AddInsert(_, m, _) => Some(m)
    case LegacyLock(m) => Some(m)
    case PostMax(m) => Some(m)
    case PostInsert(m, _) => Some(m)
    case DrainRecheck(m) => Some(m)
    case _ => None
  }

  predicate PcSays(h: Heard, s: State, pc: Pc) {
    && (Loaded(pc).Some? ==> Says(h, Loaded(pc).value.id, Loaded(pc).value.body))
    && (pc.AddIngest? ==> Quotes(h, s.dups, pc.p) && WasStored(s, pc.p.msg.id))
  }

  ghost predicate RowsSay(h: Heard, q: seq<Row>) {
    forall k | 0 <= k < |q| :: Says(h, q[k].id, q[k].body)
  }

  ghost predicate PromptsQuote(h: Heard, dups: seq<nat>, ps: seq<Prompt>) {
    forall k | 0 <= k < |ps| :: Quotes(h, dups, ps[k])
  }

  ghost predicate CacheStored(s: State) {
    forall k | 0 <= k < |s.cache| :: WasStored(s, s.cache[k].msg.id)
  }

  ghost predicate TextInv(h: Heard, s: State) {
    && (forall id | id in h :: id < |s.procs|)
    && RowsSay(h, s.queue)
    && PromptsQuote(h, s.dups, s.timeline) && PromptsQuote(h, s.dups, s.cache) && CacheStored(s)
    && forall i | 0 <= i < |s.procs| :: PcSays(h, s, s.procs[i].pc)
  }

  // ----- steps of processes -----------------------------------------------------------------

  /** What a step does to texts: everything it leaves behind says what it should. */
  ghost predicate TextMoved(h: Heard, s: State, m: Move) {
    && m.after.dups == s.dups
    && RowsSay(h, m.after.queue)
    && PromptsQuote(h, s.dups, m.after.timeline) && PromptsQuote(h, s.dups, m.after.cache) && CacheStored(m.after)
    && (forall id | WasStored(s, id) :: WasStored(m.after, id))
    && PcSays(h, m.after, m.pc)
  }

  /** What a step may rely on. */
  ghost predicate Heeds(h: Heard, s: State, i: nat) {
    && i < |s.procs| && RowsSay(h, s.queue)
    && PromptsQuote(h, s.dups, s.timeline) && PromptsQuote(h, s.dups, s.cache) && CacheStored(s)
    && PcSays(h, s, s.procs[i].pc)
  }

  /** A step that stores nothing and hands on what it holds. */
  predicate HandsOn(s: State, i: nat, m: Move)
    requires i < |s.procs|
  {
    && m.after.queue == s.queue && m.after.timeline == s.timeline && m.after.cache == s.cache
    && m.after.dups == s.dups && m.after.removed == s.removed
    && (Loaded(m.pc).Some? ==> Loaded(m.pc) == Loaded(s.procs[i].pc)) && !m.pc.AddIngest?
  }

  lemma TextHandsOn(h: Heard, s: State, i: nat, m: Move)
    requires Heeds(h, s, i) && HandsOn(s, i, m)
    ensures TextMoved(h, s, m)
  {
  }

  predicate Inserts(pc: Pc) {
    pc.EnqInsert? || pc.PostInsert?
  }

  lemma SendShape(s: State, i: nat)
    requires i < |s.procs| && FamilyOf(s.procs[i].pc) == Sending && !Inserts(s.procs[i].pc)
    ensures HandsOn(s, i, GoSend(s, i))
  {
  }

  lemma TextInsert(h: Heard, s: State, i: nat)
    requires Heeds(h, s, i) && Inserts(s.procs[i].pc)
    ensures TextMoved(h, s, GoSend(s, i))
  {
    var pc := s.procs[i].pc;
    assert RowsSay(h, Insert(s.queue, pc.m.id, pc.m.body, pc.pos));
  }

  lemma ClaimShape(s: State, i: nat)
    requires i < |s.procs| && FamilyOf(s.procs[i].pc) == Claiming
    ensures HandsOn(s, i, GoClaim(s, i))
  {
  }

  lemma KickShape(s: State, i: nat)
    requires i < |s.procs| && FamilyOf(s.procs[i].pc) == Kicking
    ensures HandsOn(s, i, GoKick(s, i))
  {
  }

  lemma ClearShape(s: State, i: nat)
    requires i < |s.procs| && FamilyOf(s.procs[i].pc) == Clearing
    ensures HandsOn(s, i, GoClear(s, i))
  {
  }

  lemma TextOther(h: Heard, s: State, i: nat)
    requires Heeds(h, s, i) && FamilyOf(s.procs[i].pc) in {Claiming, Kicking, Clearing}
    ensures TextMoved(h, s, Step(s, i))
  {
    match FamilyOf(s.procs[i].pc)
    case Claiming => ClaimShape(s, i); TextHandsOn(h, s, i, GoClaim(s, i));
    case Kicking => KickShape(s, i); TextHandsOn(h, s, i, GoKick(s, i));
    case Clearing => ClearShape(s, i); TextHandsOn(h, s, i, GoClear(s, i));
  }

  lemma AppendQuotes(h: Heard, dups: seq<nat>, ps: seq<Prompt>, p: Prompt)
    requires PromptsQuote(h, dups, ps) && Quotes(h, dups, p)
    ensures PromptsQuote(h, dups, ps + [p])
  {
  }

  lemma StoredMore(s: State, t: State, p: Prompt)
    requires t.timeline == s.timeline + [p] && t.removed == s.removed && t.cache == s.cache && CacheStored(s)
    ensures (forall id | WasStored(s, id) :: WasStored(t, id)) && WasStored(t, p.msg.id) && CacheStored(t)
  {
    assert MsgIds(t.timeline) == MsgIds(s.timeline) + [p.msg.id];
  }

  lemma TextAdd(h: Heard, s: State, i: nat)
    requires Heeds(h, s, i) && FamilyOf(s.procs[i].pc) == Adding
    ensures TextMoved(h, s, GoAdd(s, i))
  {
    var pc := s.procs[i].pc;
    match pc
    case AddMax(_, _) =>
    case AddInsert(_, m, num) =>
      var p := Prompt(num, m);
      AppendQuotes(h, s.dups, s.timeline, p);
      StoredMore(s, GoAdd(s, i).after, p);
    case AddIngest(_, p) => AppendQuotes(h, s.dups, s.cache, p);
  }

  predicate Pops(pc: Pc) {
    pc.RunPop? || pc.DrainPop?
  }

  lemma TextPop(h: Heard, s: State, i: nat, k: Option<nat>, drain: bool)
    requires Heeds(h, s, i) && (k.Some? ==> k.value < |s.queue|)
    ensures TextMoved(h, s, Popped(s, i, k, drain))
  {
  }

  /** Rows are dropped or change status only. */
  predicate Thins(q: seq<Row>, r: seq<Row>) {
    forall j | 0 <= j < |r| :: Holds(q, r[j].id, r[j].body)
  }

  predicate Holds(q: seq<Row>, id: nat, body: string) {
    exists k | 0 <= k < |q| :: q[k].id == id && q[k].body == body
  }

  lemma ThinDelete(q: seq<Row>, id: nat, running: bool)
    ensures Thins(q, Delete(q, id, running))
  {
    var r := Delete(q, id, running);
    forall j | 0 <= j < |r| ensures Holds(q, r[j].id, r[j].body) {
      var k := if r == q || j < Find(q, id).value then j else j + 1;
      assert q[k].id == r[j].id && q[k].body == r[j].body;
    }
  }

  lemma ThinReset(q: seq<Row>, id: nat)
    ensures Thins(q, Reset(q, id))
  {
    var r := Reset(q, id);
    forall j | 0 <= j < |r| ensures Holds(q, r[j].id, r[j].body) {
      assert q[j].id == r[j].id && q[j].body == r[j].body;
    }
  }

  lemma ThinSays(h: Heard, q: seq<Row>, r: seq<Row>)
    requires RowsSay(h, q) && Thins(q, r)
    ensures RowsSay(h, r)
  {
    forall j | 0 <= j < |r| ensures Says(h, r[j].id, r[j].body) {
      assert Holds(q, r[j].id, r[j].body);
      var k :| 0 <= k < |q| && q[k].id == r[j].id && q[k].body == r[j].body;
      assert Says(h, q[k].id, q[k].body);
    }
  }

  /** A step that thins the queue and then holds nothing. */
  lemma TextThin(h: Heard, s: State, i: nat, m: Move)
    requires Heeds(h, s, i) && Thins(s.queue, m.after.queue)
    requires m.after == s.(queue := m.after.queue, held := None) && Loaded(m.pc).None? && !m.pc.AddIngest?
    ensures TextMoved(h, s, m)
  {
    ThinSays(h, s.queue, m.after.queue);
  }

  lemma RunRest(s: State, i: nat)
    requires i < |s.procs| && FamilyOf(s.procs[i].pc) == Running
    requires !s.procs[i].pc.RunPop? && !s.procs[i].pc.RunMarkDone?
    ensures HandsOn(s, i, GoRun(s, i))
  {
  }

  lemma TextRun(h: Heard, s: State, i: nat)
    requires Heeds(h, s, i) && FamilyOf(s.procs[i].pc) == Running
    ensures TextMoved(h, s, GoRun(s, i))
  {
    var pc := s.procs[i].pc;
    if pc.RunPop? {
      var k := RunPopShape(s, i);
      TextPop(h, s, i, k, false);
    } else if pc.RunMarkDone? {
      ThinDelete(s.queue, pc.m.id, true);
      TextThin(h, s, i, Move(s.(queue := Delete(s.queue, pc.m.id, true), held := None), SpawnTurn));
    } else {
      RunRest(s, i);
      TextHandsOn(h, s, i, GoRun(s, i));
    }
  }

  lemma DrainRest(s: State, i: nat)
    requires i < |s.procs| && (s.procs[i].pc.Turn? || s.procs[i].pc.DrainMode? || s.procs[i].pc.DrainRecheck?)
    ensures HandsOn(s, i, GoDrain(s, i))
  {
  }

  lemma TextDrain(h: Heard, s: State, i: nat)
    requires Heeds(h, s, i) && FamilyOf(s.procs[i].pc) == Draining
    ensures TextMoved(h, s, GoDrain(s, i))
  {
    var pc := s.procs[i].pc;
    if pc.DrainPop? {
      TextPop(h, s, i, Head(s.queue), true);
    } else if pc.DrainReset? {
      ThinReset(s.queue, pc.m.id);
      TextThin(h, s, i, Move(s.(queue := Reset(s.queue, pc.m.id), held := None), ClearLock));
    } else if pc.DrainMarkDone? {
      ThinDelete(s.queue, pc.m.id, true);
      TextThin(h, s, i, Move(s.(queue := Delete(s.queue, pc.m.id, true), held := None), Turn));
    } else {
      DrainRest(s, i);
      TextHandsOn(h, s, i, GoDrain(s, i));
    }
  }

  lemma {:induction false} KeptFrom(ps: seq<Prompt>, from: nat, p: Prompt)
    requires p in KeepBelow(ps, from)
    ensures p in ps
  {
    var n := |ps| - 1;
    if p in KeepBelow(ps[..n], from) { KeptFrom(ps[..n], from, p); }
  }

  lemma TextTruncCut(h: Heard, s: State, i: nat)
    requires Heeds(h, s, i) && s.procs[i].pc.TruncCut?
    ensures TextMoved(h, s, GoCut(s, i))
  {
    var kept := KeepBelow(s.cache, s.procs[i].pc.from);
    forall k | 0 <= k < |kept| ensures Quotes(h, s.dups, kept[k]) && WasStored(s, kept[k].msg.id) {
      KeptFrom(s.cache, s.procs[i].pc.from, kept[k]);
    }
    assert GoCut(s, i).after.timeline == s.timeline && GoCut(s, i).after.removed == s.removed;
  }

  lemma EraseStored(s: State, p: Prompt)
    requires CacheStored(s)
    ensures (forall id | WasStored(s, id) :: WasStored(Erase(s, p), id)) && CacheStored(Erase(s, p))
  {
    match FindPrompt(s.timeline, p)
    case None =>
    case Some(k) =>
      var t := Erase(s, p);
      forall id | WasStored(s, id) ensures WasStored(t, id) {
        if id in MsgIds(s.timeline) {
          var j :| 0 <= j < |s.timeline| && MsgIds(s.timeline)[j] == id;
          if j == k { assert t.removed[|s.removed|] == id; }
          else { assert MsgIds(t.timeline)[if j < k then j else j - 1] == id; }
        }
      }
  }

  lemma TextErase(h: Heard, s: State, i: nat)
    requires Heeds(h, s, i) && s.procs[i].pc.TruncDelete?
    ensures TextMoved(h, s, GoCut(s, i))
  {
    var rows := s.procs[i].pc.rows;
    if rows != [] { EraseStored(s, rows[0]); }
  }

  lemma TextFamilies(h: Heard, s: State, i: nat)
    requires Heeds(h, s, i) && FamilyOf(s.procs[i].pc) !in {Ended, Spawning}
    ensures TextMoved(h, s, Step(s, i))
  {
    match FamilyOf(s.procs[i].pc)
    case Sending =>
      if Inserts(s.procs[i].pc) { TextInsert(h, s, i); }
      else { SendShape(s, i); TextHandsOn(h, s, i, GoSend(s, i)); }
    case Adding => TextAdd(h, s, i);
    case Running => TextRun(h, s, i);
    case Draining => TextDrain(h, s, i);
    case Truncating => if s.procs[i].pc.TruncCut? { TextTruncCut(h, s, i); } else { TextErase(h, s, i); }
    case _ => TextOther(h, s, i);
  }

  lemma TextApply(h: Heard, s: State, i: nat, m: Move)
    requires TextInv(h, s) && i < |s.procs| && TextMoved(h, s, m)
    ensures TextInv(h, Set(m.after.(procs := s.procs), i, m.pc))
  {
    var t := Set(m.after.(procs := s.procs), i, m.pc);
    forall j | 0 <= j < |s.procs| ensures PcSays(h, t, t.procs[j].pc) { assert PcSays(h, s, s.procs[j].pc); }
  }

  lemma TextGo(h: Heard, s: State, i: nat)
    requires TextInv(h, s) && Enabled(s, Go(i))
    ensures TextInv(h, GoStep(s, i))
  {
    if FamilyOf(s.procs[i].pc) == Spawning {
      var t := GoStep(s, i);
      forall j | 0 <= j < |t.procs| ensures PcSays(h, t, t.procs[j].pc) {
        if j < |s.procs| { assert PcSays(h, s, s.procs[j].pc); }
      }
    } else {
      TextFamilies(h, s, i);
      TextApply(h, s, i, Step(s, i));
    }
  }

  // ----- steps from outside -----------------------------------------------------------------

  /** A message that is pending and is or was a prompt was put back by a crash. */
  lemma PendingAgain(s: State, id: nat)
    requires Inv(s) && IsPending(s.queue, id) && WasStored(s, id)
    ensures id in s.dups
  {
    var k :| 0 <= k < |s.queue| && s.queue[k].id == id && !s.queue[k].running;
    var timeline, gone := multiset(MsgIds(s.timeline)), multiset(s.cancelled + s.removed);
    assert Ids(s.queue)[k] == id && id in multiset(Ids(s.queue));
    assert id in Waiting(s.queue, s.held);
    assert id in timeline || id in gone;
    NoDupCount(s.accepted, id);
    assert (multiset(s.accepted) + multiset(s.dups))[id] == (timeline + Waiting(s.queue, s.held) + gone)[id];
  }

  /** No process is about to store a message that is pending. */
  lemma LoadedNotPending(s: State, i: nat)
    requires Inv(s) && i < |s.procs| && Loaded(s.procs[i].pc).Some?
    ensures !IsPending(s.queue, Loaded(s.procs[i].pc).value.id)
  {
    assert ProcStore(s, i);
    var pc := s.procs[i].pc;
    assert Carried(pc) == Loaded(pc) || Grip(pc) == Some((Loaded(pc).value.id, false));
  }

  lemma QuotesMore(h: Heard, dups: seq<nat>, p: Prompt, id: nat, body: string)
    requires Quotes(h, dups, p) && id in h && (p.msg.id == id ==> id in dups)
    ensures Quotes(h[id := h[id] + [body]], dups, p)
  {
  }

  lemma TextEdit(h: Heard, s: State, id: nat, body: string)
    requires Inv(s) && TextInv(h, s)
    ensures TextInv(Hear(h, s, Edit(id, body)), Next(s, Edit(id, body)))
  {
    var g, q := Hear(h, s, Edit(id, body)), UpdateBody(s.queue, id, body);
    var t := s.(queue := q);
    if IsPending(s.queue, id) {
      EditedRows(h, s.queue, id, body);
      forall k | 0 <= k < |s.timeline| ensures Quotes(g, s.dups, s.timeline[k]) {
        assert MsgIds(s.timeline)[k] == s.timeline[k].msg.id;
        if s.timeline[k].msg.id == id { PendingAgain(s, id); }
        QuotesMore(h, s.dups, s.timeline[k], id, body);
      }
      forall k | 0 <= k < |s.cache| ensures Quotes(g, s.dups, s.cache[k]) {
        if s.cache[k].msg.id == id { PendingAgain(s, id); }
        QuotesMore(h, s.dups, s.cache[k], id, body);
      }
      forall j | 0 <= j < |s.procs| ensures PcSays(g, t, s.procs[j].pc) { EditedPc(h, s, j, id, body); }
    } else {
      NothingToEdit(s.queue, id, body);
      assert t == s;
    }
  }

  lemma NothingToEdit(q: seq<Row>, id: nat, body: string)
    requires !IsPending(q, id)
    ensures UpdateBody(q, id, body) == q
  {
  }

  lemma EditedRows(h: Heard, q: seq<Row>, id: nat, body: string)
    requires RowsSay(h, q) && UniqueIds(q) && IsPending(q, id)
    ensures id in h && RowsSay(h[id := h[id] + [body]], UpdateBody(q, id, body))
  {
    var k :| 0 <= k < |q| && q[k].id == id && !q[k].running;
    FindUnique(q, k);
    assert Says(h, q[k].id, q[k].body);
    forall j | 0 <= j < |q| && j != k ensures q[j].id != id { assert q[j].id != q[k].id; }
  }

  lemma EditedPc(h: Heard, s: State, j: nat, id: nat, body: string)
    requires Inv(s) && IsPending(s.queue, id) && id in h && j < |s.procs| && PcSays(h, s, s.procs[j].pc)
    ensures PcSays(h[id := h[id] + [body]], s.(queue := UpdateBody(s.queue, id, body)), s.procs[j].pc)
  {
    var pc := s.procs[j].pc;
    if Loaded(pc).Some? { LoadedNotPending(s, j); }
    if pc.AddIngest? {
      if pc.p.msg.id == id { PendingAgain(s, id); }
      QuotesMore(h, s.dups, pc.p, id, body);
    }
  }

  lemma TextArrive(h: Heard, s: State, req: Request)
    requires TextInv(h, s) && Enabled(s, Arrive(req))
    ensures TextInv(Hear(h, s, Arrive(req)), Next(s, Arrive(req)))
  {
    var g, t := Hear(h, s, Arrive(req)), Next(s, Arrive(req));
    assert forall id | id in h :: id in g && g[id] == h[id];
    forall j | 0 <= j < |t.procs| ensures PcSays(g, t, t.procs[j].pc) {
      if j < |s.procs| { assert PcSays(h, s, s.procs[j].pc); }
    }
  }

  lemma TextCrash(h: Heard, s: State)
    requires TextInv(h, s)
    ensures TextInv(h, Reboot(s))
  {
    var t := Reboot(s);
    assert forall id | id in s.dups :: id in t.dups;
    forall k | 0 <= k < |t.queue| ensures Says(h, t.queue[k].id, t.queue[k].body) {
      assert Says(h, s.queue[k].id, s.queue[k].body);
    }
    forall k | 0 <= k < |s.timeline| ensures WasStored(t, s.timeline[k].msg.id) {
      assert MsgIds(s.timeline)[k] == s.timeline[k].msg.id;
    }
  }

  lemma TextRows(h: Heard, s: State, q: seq<Row>, cancelled: seq<nat>)
    requires TextInv(h, s) && Thins(s.queue, q)
    ensures TextInv(h, s.(queue := q, cancelled := cancelled))
  {
    ThinSays(h, s.queue, q);
    var t := s.(queue := q, cancelled := cancelled);
    forall j | 0 <= j < |s.procs| ensures PcSays(h, t, s.procs[j].pc) { assert PcSays(h, s, s.procs[j].pc); }
  }

  lemma ThinReorder(q: seq<Row>, ids: seq<nat>)
    ensures Thins(q, Reorder(q, ids))
  {
    var r := Reorder(q, ids);
    forall j | 0 <= j < |r| ensures Holds(q, r[j].id, r[j].body) {
      assert q[j].id == r[j].id && q[j].body == r[j].body;
    }
  }

  lemma TextStep(h: Heard, s: State, ev: Event)
    requires Inv(s) && TextInv(h, s) && Enabled(s, ev)
    ensures TextInv(Hear(h, s, ev), Next(s, ev))
  {
    match ev
    case Arrive(req) => TextArrive(h, s, req);
    case Go(i) => TextGo(h, s, i);
    case Cancel(id) =>
      ThinDelete(s.queue, id, false);
      TextRows(h, s, CancelStep(s, id).queue, CancelStep(s, id).cancelled);
    case Edit(id, body) => TextEdit(h, s, id, body);
    case Reordering(ids) =>
      ThinReorder(s.queue, ids);
      TextRows(h, s, Reorder(s.queue, ids), s.cancelled);
    case Crash => TextCrash(h, s);
  }

  lemma {:induction false} TextReached(h: Heard, s: State, evs: seq<Event>)
    requires Inv(s) && TextInv(h, s) && Valid(s, evs)
    ensures TextInv(Hearing(h, s, evs), Run(s, evs))
    decreases |evs|
  {
    if evs != [] {
      TextStep(h, s, evs[0]);
      InvStep(s, evs[0]);
      TextReached(Hear(h, s, evs[0]), Next(s, evs[0]), evs[1..]);
    }
  }

  /** Every row says what its sender or the last edit that found it pending said; every prompt,
      stored or cached, says what its message said when it was taken up, which is the same unless a
      crash put the message back into the queue as well. */
  lemma MessagesKeepTheirText(evs: seq<Event>)
    requires Valid(IDLE, evs)
    ensures var s, h := Run(IDLE, evs), Hearing(map[], IDLE, evs);
            && (forall k | 0 <= k < |s.queue| :: Says(h, s.queue[k].id, s.queue[k].body))
            && (forall k | 0 <= k < |s.timeline| :: Quotes(h, s.dups, s.timeline[k]))
            && (forall k | 0 <= k < |s.cache| :: Quotes(h, s.dups, s.cache[k]))
  {
    InvIdle();
    TextReached(map[], IDLE, evs);
  }
}
