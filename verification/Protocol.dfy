/**
 The dispatch protocol of one chat, as a transition system.

 Every handler and every background task is a process with a program counter. A step is
 one lock acquisition, one store statement, one in-memory update or one task spawn;
 anything may run in between. The mutex `dispatching` is `lock`, the chat's membership in
 the set it protects is `flag`. Critical sections of other chats only delay the lock.

 `owner`, `held`, `landing`, `doomed`, `accepted`, `cancelled`, `removed` and `dups` are
 bookkeeping that no step reads: who answers for the flag, which popped row is whose, which
 prompt is stored but not cached, which process is to delete each stored prompt that a
 truncation has cut from the cache, and what became of every message. A message is named by
 the index of the process that brought it.
 */
module Protocol {
  import opened Util
  import opened QueueStore

  datatype Msg = Msg(id: nat, body: string)

  datatype Prompt = Prompt(num: nat, msg: Msg)

  /** Who runs `persist_add_prompt`. */
  datatype Caller = BySend | ByRun | ByLegacy | ByDrain

  /** What follows `drop(dispatching)`. */
  datatype Then = Return | ToDrain | ToTurn | ToMarkDone(done: Msg) | ToDrainAgain

  datatype Pc =
    | Done
    | TickCheck(m: Msg)
    // send_message
    | SendLock(m: Msg) | SendRead(m: Msg)
    | EnqMax(m: Msg, busy: bool) | EnqInsert(m: Msg, busy: bool, pos: int) | EnqMode
    | SendClaim(m: Msg)
    // dispatching.insert, then drop(dispatching)
    | Claim(next: Then) | Unlock(next: Then)
    | SpawnDrain | SpawnTurn
    // persist_add_prompt: MAX(seq), INSERT, cache push
    | AddMax(who: Caller, m: Msg) | AddInsert(who: Caller, m: Msg, num: nat) | AddIngest(who: Caller, p: Prompt)
    // run_next and dispatch_item
    | RunLock(pick: Option<nat>) | RunCheck(pick: Option<nat>) | RunPop(pick: Option<nat>) | RunMarkDone(m: Msg)
    // retry_chat
    | RetryLock | RetryCheck
    // set_mode and kick_drain_if_idle (also the tail of stop_turn, after its forced clear)
    | ModeWrite(mode: bool) | ForceFlag | KickLock | KickCheck | KickMode | KickRead
    // the legacy add_prompt route and POST /queue
    | LegacyLock(m: Msg) | PostMax(m: Msg) | PostInsert(m: Msg, pos: int)
    // truncate_chat: cut the cache, then delete the cut prompts one by one
    | TruncCut(from: nat) | TruncDelete(rows: seq<Prompt>)
    // the spawned task: agent turn, drain loop, release, deferred clear of the guard
    | Turn
    | DrainMode | DrainPop | DrainRecheck(m: Msg) | DrainReset(m: Msg) | DrainMarkDone(m: Msg)
    | ClearLock | ClearRead | ClearMode | ClearRemove
    | Guard

  /** `tick` marks the schedule ticker's own sends. */
  datatype Proc = Proc(pc: Pc, tick: bool)

  /** The popped row in transit: whose it is, and whether it already is a prompt. */
  datatype Held = Held(pid: nat, id: nat, landed: bool)

  datatype State = State(
    flag: bool, lock: Option<nat>, auto: bool,
    queue: seq<Row>, timeline: seq<Prompt>, cache: seq<Prompt>,
    procs: seq<Proc>,
    owner: Option<nat>, held: Option<Held>, landing: Option<nat>, doomed: seq<nat>, ticker: Option<nat>,
    accepted: seq<nat>, cancelled: seq<nat>, removed: seq<nat>, dups: seq<nat>)

  const IDLE := State(false, None, false, [], [], [], [], None, None, None, [], None, [], [], [], [])

  datatype Request =
    | Send(body: string) | Tick(body: string)
    | RunNext | Dispatch(id: nat) | Retry | SetMode(mode: bool)
    // `forces`: it found no running turn and a finished last prompt, and clears the flag
    | Stop(forces: bool)
    | Truncate(from: nat)
    | Legacy(body: string) | Post(body: string)

  datatype Event =
    | Arrive(req: Request)
    | Go(i: nat)
    // store operations that are one statement or one transaction
    | Cancel(id: nat) | Edit(id: nat, body: string) | Reordering(ids: seq<nat>)
    | Crash

  // ----- roles of a program counter -------------------------------------------------------

  predicate HoldsLock(pc: Pc) {
    match pc
    case SendRead(_) => true
    case EnqMax(_, _) => true
    case EnqInsert(_, _, _) => true
    case EnqMode => true
    case SendClaim(_) => true
    case Claim(_) => true
    case Unlock(_) => true
    case RunCheck(_) => true
    case RunPop(_) => true
    case RetryCheck => true
    case KickCheck => true
    case KickMode => true
    case KickRead => true
    case AddMax(who, _) => who != ByDrain
    case AddInsert(who, _, _) => who != ByDrain
    case AddIngest(who, _) => who != ByDrain
    case ClearRead => true
    case ClearMode => true
    case ClearRemove => true
    case _ => false
  }

  /** Answers for the set flag: a handler between claim and spawn, or the one live task. */
  predicate Owns(pc: Pc) {
    match pc
    case Unlock(next) => next != Return
    case SpawnDrain => true
    case SpawnTurn => true
    case RunMarkDone(_) => true
    case AddMax(who, _) => who == BySend || who == ByDrain
    case AddInsert(who, _, _) => who == BySend || who == ByDrain
    case AddIngest(who, _) => who == BySend || who == ByDrain
    case Turn => true
    case DrainMode => true
    case DrainPop => true
    case DrainRecheck(_) => true
    case DrainReset(_) => true
    case DrainMarkDone(_) => true
    case ClearLock => true
    case ClearRead => true
    case ClearMode => true
    case ClearRemove => true
    case _ => false
  }

  /** Saw the flag clear under the lock it still holds. */
  predicate SawIdle(pc: Pc) {
    match pc
    case EnqMax(_, busy) => !busy
    case EnqInsert(_, busy, _) => !busy
    case EnqMode => true
    case SendClaim(_) => true
    case Claim(_) => true
    case RunPop(_) => true
    case KickMode => true
    case KickRead => true
    case AddMax(who, _) => who == ByRun || who == ByLegacy
    case AddInsert(who, _, _) => who == ByRun || who == ByLegacy
    case AddIngest(who, _) => who == ByRun || who == ByLegacy
    case _ => false
  }

  predicate SawBusy(pc: Pc) {
    match pc
    case EnqMax(_, busy) => busy
    case EnqInsert(_, busy, _) => busy
    case _ => false
  }

  /** The popped row the process is responsible for, and whether its prompt exists. */
  function Grip(pc: Pc): Option<(nat, bool)> {
    match pc
    case AddMax(who, m) => if who == ByRun || who == ByDrain then Some((m.id, false)) else None
    case AddInsert(who, m, _) => if who == ByRun || who == ByDrain then Some((m.id, false)) else None
    case AddIngest(who, p) => if who == ByRun || who == ByDrain then Some((p.msg.id, true)) else None
    case Claim(next) => if next.ToMarkDone? then Some((next.done.id, true)) else None
    case Unlock(next) => if next.ToMarkDone? then Some((next.done.id, true)) else None
    case RunMarkDone(m) => Some((m.id, true))
    case DrainRecheck(m) => Some((m.id, false))
    case DrainReset(m) => Some((m.id, false))
    case DrainMarkDone(m) => Some((m.id, true))
    case _ => None
  }

  /** The message the process brought and has not stored yet. */
  function Carried(pc: Pc): Option<Msg> {
    match pc
    case TickCheck(m) => Some(m)
    case SendLock(m) => Some(m)
    case SendRead(m) => Some(m)
    case EnqMax(m, _) => Some(m)
    case EnqInsert(m, _, _) => Some(m)
    case SendClaim(m) => Some(m)
    case AddMax(who, m) => if who == BySend || who == ByLegacy then Some(m) else None
    case AddInsert(who, m, _) => if who == BySend || who == ByLegacy then Some(m) else None
    case LegacyLock(m) => Some(m)
    case PostMax(m) => Some(m)
    case PostInsert(m, _) => Some(m)
    case _ => None
  }

  // ----- steps ------------------------------------------------------------------------------

  /** What a step of a process does: the rest of the state after it, and where it goes on. */
  datatype Move = Move(after: State, pc: Pc)

  /** `SELECT COALESCE(MAX(seq), 0) + 1`. */
  function NextNum(timeline: seq<Prompt>): (n: nat)
    ensures forall k | 0 <= k < |timeline| :: timeline[k].num < n
  {
    if timeline == [] then 1
    else
      var n := NextNum(timeline[..|timeline| - 1]);
      var last := timeline[|timeline| - 1].num;
      if n <= last then last + 1 else n
  }

  function AfterUnlock(next: Then): Pc {
    match next
    case Return => Done
    case ToDrain => SpawnDrain
    case ToTurn => SpawnTurn
    case ToMarkDone(m) => RunMarkDone(m)
    case ToDrainAgain => DrainMode
  }

  predicate PendingBody(rows: seq<Row>, body: string) {
    exists k | 0 <= k < |rows| :: !rows[k].running && rows[k].body == body
  }

  function GoSend(s: State, i: nat): Move
    requires i < |s.procs|
  {
    match s.procs[i].pc
    case TickCheck(m) => Move(s, if PendingBody(s.queue, m.body) then Done else SendLock(m))
    case SendLock(m) => Move(s.(lock := Some(i)), SendRead(m))
    case SendRead(m) => Move(s, if s.flag || HasPending(s.queue) then EnqMax(m, s.flag) else SendClaim(m))
    case EnqMax(m, busy) => Move(s, EnqInsert(m, busy, NextPos(s.queue)))
    case EnqInsert(m, busy, pos) =>
      Move(s.(queue := Insert(s.queue, m.id, m.body, pos), accepted := s.accepted + [m.id]),
           if busy then Unlock(Return) else EnqMode)
    case EnqMode => Move(s, if s.auto then Claim(ToDrain) else Unlock(Return))
    case SendClaim(m) => Move(s.(flag := true, owner := Some(i)), AddMax(BySend, m))
    case PostMax(m) => Move(s, PostInsert(m, NextPos(s.queue)))
    case PostInsert(m, pos) =>
      Move(s.(queue := Insert(s.queue, m.id, m.body, pos), accepted := s.accepted + [m.id]), Done)
    case _ => Move(s, Done)
  }

  function GoClaim(s: State, i: nat): Move
    requires i < |s.procs|
  {
    match s.procs[i].pc
    case Claim(next) => Move(s.(flag := true, owner := Some(i)), Unlock(next))
    case Unlock(next) => Move(s.(lock := None), AfterUnlock(next))
    case _ => Move(s, Done)
  }

  function GoAdd(s: State, i: nat): Move
    requires i < |s.procs|
  {
    match s.procs[i].pc
    case AddMax(who, m) => Move(s, AddInsert(who, m, NextNum(s.timeline)))
    case AddInsert(who, m, num) =>
      var p := Prompt(num, m);
      var t := s.(timeline := s.timeline + [p], landing := Some(i));
      Move(if who == BySend || who == ByLegacy then t.(accepted := s.accepted + [m.id])
           else t.(held := if s.held.Some? then Some(s.held.value.(landed := true)) else None), AddIngest(who, p))
    case AddIngest(who, p) =>
      Move(s.(cache := s.cache + [p], landing := None),
          match who
          case BySend => Unlock(ToTurn)
          case ByRun => Claim(ToMarkDone(p.msg))
          case ByLegacy => Claim(ToTurn)
          case ByDrain => DrainMarkDone(p.msg))
    case _ => Move(s, Done)
  }

  /** Pops the row at `k`, if there is one, for a drain loop or for a handler. */
  function Popped(s: State, i: nat, k: Option<nat>, drain: bool): Move
    requires i < |s.procs| && (k.Some? ==> k.value < |s.queue|)
  {
    match k
    case None => Move(s, if drain then ClearLock else Unlock(Return))
    case Some(k) =>
      var m := Msg(s.queue[k].id, s.queue[k].body);
      Move(s.(queue := MarkRunning(s.queue, k), held := Some(Held(i, m.id, false))),
           if drain then DrainRecheck(m) else AddMax(ByRun, m))
  }

  function GoRun(s: State, i: nat): Move
    requires i < |s.procs|
  {
    match s.procs[i].pc
    case RunLock(pick) => Move(s.(lock := Some(i)), RunCheck(pick))
    case RunCheck(pick) => Move(s, if s.flag then Unlock(Return) else RunPop(pick))
    case RunPop(pick) =>
      var k := if pick.None? then Head(s.queue) else FindPending(s.queue, pick.value);
      Popped(s, i, k, false)
    case RunMarkDone(m) => Move(s.(queue := Delete(s.queue, m.id, true), held := None), SpawnTurn)
    case RetryLock => Move(s.(lock := Some(i)), RetryCheck)
    case RetryCheck => Move(s, if s.cache == [] || s.flag then Unlock(Return) else Claim(ToTurn))
    case LegacyLock(m) => Move(s.(lock := Some(i)), AddMax(ByLegacy, m))
    case _ => Move(s, Done)
  }

  function GoKick(s: State, i: nat): Move
    requires i < |s.procs|
  {
    match s.procs[i].pc
    case ModeWrite(mode) => Move(s.(auto := mode), if mode then KickLock else Done)
    case KickLock => Move(s.(lock := Some(i)), KickCheck)
    case KickCheck => Move(s, if s.flag then Unlock(Return) else KickMode)
    case KickMode => Move(s, if s.auto then KickRead else Unlock(Return))
    case KickRead => Move(s, if HasPending(s.queue) then Claim(ToDrain) else Unlock(Return))
    case ForceFlag => Move(s.(flag := false), KickLock)
    case _ => Move(s, Done)
  }

  function KeepBelow(ps: seq<Prompt>, from: nat): seq<Prompt> {
    if ps == [] then []
    else KeepBelow(ps[..|ps| - 1], from) + if ps[|ps| - 1].num < from then [ps[|ps| - 1]] else []
  }

  function CutFrom(ps: seq<Prompt>, from: nat): seq<Prompt> {
    if ps == [] then []
    else CutFrom(ps[..|ps| - 1], from) + if ps[|ps| - 1].num >= from then [ps[|ps| - 1]] else []
  }

  function Tags(n: nat, i: nat): (r: seq<nat>)
    ensures |r| == n && forall k | 0 <= k < n :: r[k] == i
  {
    if n == 0 then [] else Tags(n - 1, i) + [i]
  }

  /** Where the stored prompt is, if it still exists. */
  function FindPrompt(ps: seq<Prompt>, p: Prompt): (k: Option<nat>)
    ensures k.Some? ==> k.value < |ps| && ps[k.value] == p
    ensures k.None? ==> p !in ps
  {
    if ps == [] then None
    else if ps[|ps| - 1] == p then Some(|ps| - 1)
    else FindPrompt(ps[..|ps| - 1], p)
  }

  /** DELETE FROM prompts WHERE id. */
  function Erase(s: State, p: Prompt): State {
    match FindPrompt(s.timeline, p)
    case None => s
    case Some(k) =>
      s.(timeline := RemoveAt(s.timeline, k), removed := s.removed + [p.msg.id],
         doomed := if |s.cache| <= k < |s.cache| + |s.doomed| then RemoveAt(s.doomed, k - |s.cache|) else s.doomed)
  }

  function GoCut(s: State, i: nat): Move
    requires i < |s.procs|
  {
    match s.procs[i].pc
    case TruncCut(from) =>
      var cut := CutFrom(s.cache, from);
      Move(s.(cache := KeepBelow(s.cache, from), doomed := Tags(|cut|, i) + s.doomed),
           if cut == [] then Done else TruncDelete(cut))
    case TruncDelete(rows) =>
      if rows == [] then Move(s, Done)
      else Move(Erase(s, rows[0]), if |rows| == 1 then Done else TruncDelete(rows[1..]))
    case _ => Move(s, Done)
  }

  function GoDrain(s: State, i: nat): Move
    requires i < |s.procs|
  {
    match s.procs[i].pc
    case Turn => Move(s, DrainMode)
    case DrainMode => Move(s, if s.auto then DrainPop else ClearLock)
    case DrainPop => Popped(s, i, Head(s.queue), true)
    case DrainRecheck(m) => Move(s, if s.auto then AddMax(ByDrain, m) else DrainReset(m))
    case DrainReset(m) => Move(s.(queue := Reset(s.queue, m.id), held := None), ClearLock)
    case DrainMarkDone(m) => Move(s.(queue := Delete(s.queue, m.id, true), held := None), Turn)
    case _ => Move(s, Done)
  }

  function GoClear(s: State, i: nat): Move
    requires i < |s.procs|
  {
    match s.procs[i].pc
    case ClearLock => Move(s.(lock := Some(i)), ClearRead)
    case ClearRead => Move(s, if HasPending(s.queue) then ClearMode else ClearRemove)
    case ClearMode => Move(s, if s.auto then Unlock(ToDrainAgain) else ClearRemove)
    case ClearRemove => Move(s.(flag := false, owner := None, lock := None), Guard)
    case Guard => Move(s.(flag := false), Done)
    case _ => Move(s, Done)
  }

  /** The handler or task a program counter belongs to. */
  datatype Family =
    | Ended | Sending | Claiming | Spawning | Adding | Running | Kicking | Draining | Clearing | Truncating

  function FamilyOf(pc: Pc): Family {
    match pc
    case Done => Ended
    case TickCheck(_) => Sending
    case SendLock(_) => Sending
    case SendRead(_) => Sending
    case EnqMax(_, _) => Sending
    case EnqInsert(_, _, _) => Sending
    case EnqMode => Sending
    case SendClaim(_) => Sending
    case PostMax(_) => Sending
    case PostInsert(_, _) => Sending
    case Claim(_) => Claiming
    case Unlock(_) => Claiming
    case SpawnDrain => Spawning
    case SpawnTurn => Spawning
    case AddMax(_, _) => Adding
    case AddInsert(_, _, _) => Adding
    case AddIngest(_, _) => Adding
    case RunLock(_) => Running
    case RunCheck(_) => Running
    case RunPop(_) => Running
    case RunMarkDone(_) => Running
    case RetryLock => Running
    case RetryCheck => Running
    case LegacyLock(_) => Running
    case ModeWrite(_) => Kicking
    case KickLock => Kicking
    case KickCheck => Kicking
    case KickMode => Kicking
    case KickRead => Kicking
    case ForceFlag => Kicking
    case TruncCut(_) => Truncating
    case TruncDelete(_) => Truncating
    case ClearLock => Clearing
    case ClearRead => Clearing
    case ClearMode => Clearing
    case ClearRemove => Clearing
    case Guard => Clearing
    case _ => Draining
  }

  function Step(s: State, i: nat): Move
    requires i < |s.procs|
  {
    match FamilyOf(s.procs[i].pc)
    case Sending => GoSend(s, i)
    case Claiming => GoClaim(s, i)
    case Adding => GoAdd(s, i)
    case Running => GoRun(s, i)
    case Kicking => GoKick(s, i)
    case Draining => GoDrain(s, i)
    case Clearing => GoClear(s, i)
    case Truncating => GoCut(s, i)
    case _ => Move(s, Done)
  }

  /** The process moves on. */
  function Set(s: State, i: nat, pc: Pc): State
    requires i < |s.procs|
  {
    s.(procs := s.procs[i := s.procs[i].(pc := pc)])
  }

  /** The handler ends and the task it spawned answers for the flag from now on. */
  function Spawn(s: State, i: nat, task: Pc): State
    requires i < |s.procs|
  {
    s.(procs := s.procs[i := s.procs[i].(pc := Done)] + [Proc(task, false)], owner := Some(|s.procs|))
  }

  function GoStep(s: State, i: nat): State
    requires i < |s.procs|
  {
    var pc := s.procs[i].pc;
    if FamilyOf(pc) == Spawning then Spawn(s, i, if pc.SpawnDrain? then DrainMode else Turn)
    else
      var move := Step(s, i);
      Set(move.after.(procs := s.procs), i, move.pc)
  }

  /** First step of a request; `n` is the index its process gets. */
  function Entry(req: Request, n: nat): Pc {
    match req
    case Send(body) => SendLock(Msg(n, body))
    case Tick(body) => TickCheck(Msg(n, body))
    case RunNext => RunLock(None)
    case Dispatch(id) => RunLock(Some(id))
    case Retry => RetryLock
    case SetMode(mode) => ModeWrite(mode)
    case Stop(forces) => if forces then ForceFlag else KickLock
    case Truncate(from) => TruncCut(from)
    case Legacy(body) => LegacyLock(Msg(n, body))
    case Post(body) => PostMax(Msg(n, body))
  }

  function MsgIds(ps: seq<Prompt>): (r: seq<nat>)
    ensures |r| == |ps|
    ensures forall k | 0 <= k < |r| :: r[k] == ps[k].msg.id
  {
    seq(|ps|, k requires 0 <= k < |ps| => ps[k].msg.id)
  }

  /** The server dies and comes back: tasks, flag and lock are gone, Running rows are
      Pending again, the cache is rebuilt from the stored prompts. */
  function Reboot(s: State): State {
    s.(flag := false, lock := None, owner := None, held := None, landing := None, doomed := [],
       queue := Recover(s.queue), cache := s.timeline,
       procs := seq(|s.procs|, k requires 0 <= k < |s.procs| => s.procs[k].(pc := Done)),
       dups := if s.held.Some? && s.held.value.landed then s.dups + [s.held.value.id] else s.dups)
  }

  function CancelStep(s: State, id: nat): State {
    var q := Delete(s.queue, id, false);
    if |q| < |s.queue| then s.(queue := q, cancelled := s.cancelled + [id]) else s
  }

  /** Whether the step can be taken at all. */
  predicate Enabled(s: State, ev: Event) {
    match ev
    case Arrive(req) => req.Tick? ==> s.ticker.None? || (s.ticker.value < |s.procs| && s.procs[s.ticker.value].pc.Done?)
    case Go(i) =>
      && i < |s.procs| && !s.procs[i].pc.Done?
      && (Locks(s.procs[i].pc) ==> s.lock.None?)
    case _ => true
  }

  /** Steps that wait for the mutex. */
  predicate Locks(pc: Pc) {
    || pc.SendLock? || pc.RunLock? || pc.RetryLock? || pc.LegacyLock? || pc.KickLock?
    || pc.ForceFlag? || pc.ClearLock? || pc.Guard?
  }

  function Next(s: State, ev: Event): State
    requires Enabled(s, ev)
  {
    match ev
    case Arrive(req) =>
      s.(procs := s.procs + [Proc(Entry(req, |s.procs|), req.Tick?)],
         ticker := if req.Tick? then Some(|s.procs|) else s.ticker)
    case Go(i) => GoStep(s, i)
    case Cancel(id) => CancelStep(s, id)
    case Edit(id, body) => s.(queue := UpdateBody(s.queue, id, body))
    case Reordering(ids) => s.(queue := Reorder(s.queue, ids))
    case Crash => Reboot(s)
  }

  /** Writes the flag without looking at it. */
  predicate Blind(pc: Pc) {
    pc.LegacyLock? || pc.Guard? || pc.ForceFlag?
  }

  /** The use the protocol is built for: the legacy route, the deferred clear of a finished task
      and the forced clear of a stop only find the flag clear. */
  predicate Disciplined(s: State, ev: Event) {
    ev.Go? && ev.i < |s.procs| && Blind(s.procs[ev.i].pc) ==> !s.flag
  }

  ghost predicate Valid(s: State, evs: seq<Event>)
    decreases |evs|
  {
    evs == [] || (Enabled(s, evs[0]) && Disciplined(s, evs[0]) && Valid(Next(s, evs[0]), evs[1..]))
  }

  ghost function Run(s: State, evs: seq<Event>): State
    requires Valid(s, evs)
    decreases |evs|
  {
    if evs == [] then s else Run(Next(s, evs[0]), evs[1..])
  }
}
