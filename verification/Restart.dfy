/** Cache and store kept together: a restart rebuilds the cache from the store and shows nothing. */
module Restart {
  import opened Util
  import opened Events
  import opened EventLog
  import opened ChatStore
  import opened ChatRegistry

  datatype System = System(store: Store, cache: Cache)

  const START := System(Store([], [], 0), EMPTY)

  /** One completed request. Titles come trimmed. */
  datatype Op =
    | Create(meta: Meta)
    | Send(chat: nat, content: Text)
    | FinishTurn(chat: nat, prompt: nat, evs: seq<AgentEvent>)
    | Retry(chat: nat)
    | Update(chat: nat, title: Option<Text>, model: Option<Text>,
             effort: Option<Option<Text>>, session: Option<Option<Text>>)
    | Truncate(chat: nat, num: nat)
    | Delete(chat: nat)
    | DeleteProject(project: Text)
    | Reboot

  // ----- hydration ----------------------------------------------------------------------

  function HydrateRows(chats: seq<ChatRow>, table: seq<PromptRow>): Cache {
    if chats == [] then EMPTY
    else
      var n := |chats| - 1;
      var c := HydrateRows(chats[..n], table);
      if chats[n].deleted then c else Ingest(c, Chat(n, chats[n].meta, ListPrompts(table, n)))
  }

  function Hydrated(s: Store): Cache {
    HydrateRows(s.chats, s.prompts)
  }

  // ----- the requests -------------------------------------------------------------------

  function AppendAll(buf: seq<AgentEvent>, evs: seq<AgentEvent>): seq<AgentEvent> {
    if evs == [] then buf else Append(AppendAll(buf, evs[..|evs| - 1]), evs[|evs| - 1])
  }

  /** A new model drops the session unless the caller names one. */
  function EffectiveSession(c: Cache, chat: nat, model: Option<Text>,
      session: Option<Option<Text>>): Option<Option<Text>> {
    if model.Some? && (chat !in c.byId || c.byId[chat].meta.model != model.value) && session.None?
    then Some(None) else session
  }

  function CachePatched(m: Meta, title: Option<Text>, model: Option<Text>,
      effort: Option<Option<Text>>, session: Option<Option<Text>>): Meta {
    var a := if title.Some? then m.(title := title.value) else m;
    var b := if model.Some? && a.model != model.value then a.(model := model.value, session := None) else a;
    var d := if effort.Some? then b.(effort := effort.value) else b;
    if session.Some? then d.(session := session.value) else d
  }

  function DeleteChats(s: Store, ids: seq<nat>): Store {
    if ids == [] then s else DeleteChat(DeleteChats(s, ids[..|ids| - 1]), ids[|ids| - 1])
  }

  function StepCreate(sys: System, meta: Meta): System {
    if meta.title == [] then sys
    else System(CreateChat(sys.store, meta),
                Ingest(sys.cache, Chat(|sys.store.chats|, meta.(session := None), [])))
  }

  function StepSend(sys: System, chat: nat, content: Text): System {
    if chat < |sys.store.chats| && chat in sys.cache.byId
    then System(AddPrompt(sys.store, chat, content),
                SetPrompts(sys.cache, chat, sys.cache.byId[chat].prompts + [NextPrompt(sys.store, chat, content)]))
    else System(AddPrompt(sys.store, chat, content), sys.cache)
  }

  function StepFinish(sys: System, chat: nat, prompt: nat, evs: seq<AgentEvent>): System {
    if chat !in sys.cache.byId then sys
    else
      var recs := sys.cache.byId[chat].prompts;
      match FindPrompt(recs, prompt)
      case None => sys
      case Some(k) =>
        var kept := AppendAll(recs[k].events, evs);
        System(EditPrompt(sys.store, prompt, SetEvents(kept)),
               SetPrompts(sys.cache, chat, recs[k := recs[k].(events := kept)]))
  }

  function StepRetry(sys: System, chat: nat): System {
    if chat !in sys.cache.byId || sys.cache.byId[chat].prompts == [] then sys
    else
      var recs := sys.cache.byId[chat].prompts;
      var id := recs[|recs| - 1].id;
      System(EditPrompt(EditPrompt(sys.store, id, SetEvents([])), id, SetTouched([])),
             SetPrompts(sys.cache, chat, Retried(recs)))
  }

  function StepUpdate(sys: System, chat: nat, title: Option<Text>, model: Option<Text>,
      effort: Option<Option<Text>>, session: Option<Option<Text>>): System {
    var s := EffectiveSession(sys.cache, chat, model, session);
    if chat >= |sys.store.chats| then sys
    else System(UpdateChat(sys.store, chat, title, model, effort, s),
                if chat in sys.cache.byId
                then SetMeta(sys.cache, chat, CachePatched(sys.cache.byId[chat].meta, title, model, effort, s))
                else sys.cache)
  }

  function StepTruncate(sys: System, chat: nat, num: nat): System {
    if chat !in sys.cache.byId then sys
    else
      var recs := sys.cache.byId[chat].prompts;
      System(DeletePrompts(sys.store, RemovedIds(recs, num)), SetPrompts(sys.cache, chat, Before(recs, num)))
  }

  function StepDeleteProject(sys: System, project: Text): System {
    System(DeleteChats(sys.store, LiveIds(sys.store.chats, project)), Retained(sys.cache, ChatsOf(sys.cache, project)))
  }

  function Step(sys: System, op: Op): System {
    match op
    case Create(meta) => StepCreate(sys, meta)
    case Send(chat, content) => StepSend(sys, chat, content)
    case FinishTurn(chat, prompt, evs) => StepFinish(sys, chat, prompt, evs)
    case Retry(chat) => StepRetry(sys, chat)
    case Update(chat, title, model, effort, session) => StepUpdate(sys, chat, title, model, effort, session)
    case Truncate(chat, num) => StepTruncate(sys, chat, num)
    case Delete(chat) => System(DeleteChat(sys.store, chat), Evict(sys.cache, chat))
    case DeleteProject(project) => StepDeleteProject(sys, project)
    case Reboot => sys.(cache := Hydrated(sys.store))
  }

  function Runs(ops: seq<Op>): System {
    if ops == [] then START else Step(Runs(ops[..|ops| - 1]), ops[|ops| - 1])
  }

  // ----- agreement ----------------------------------------------------------------------

  function PromptIds(table: seq<PromptRow>): seq<nat> {
    if table == [] then [] else PromptIds(table[..|table| - 1]) + [table[|table| - 1].rec.id]
  }

  ghost predicate StoreOk(s: Store) {
    && NoDup(PromptIds(s.prompts))
    && (forall id | id in PromptIds(s.prompts) :: id < s.issued)
    && (forall chat: nat | chat >= |s.chats| :: RowsOf(s.prompts, chat) == [])
    && (forall chat: nat :: Numbered(RowsOf(s.prompts, chat)))
  }

  predicate ChatAgrees(s: Store, c: Cache, id: nat) {
    && (id in c.byId <==> Live(s, id))
    && (Live(s, id) ==> c.byId[id] == Chat(id, s.chats[id].meta, RowsOf(s.prompts, id)))
  }

  ghost predicate Agree(s: Store, c: Cache) {
    && (forall id: nat :: ChatAgrees(s, c, id))
    && (forall project :: Lookup(c, project) == LiveIds(s.chats, project))
  }

  ghost predicate Sound(sys: System) {
    StoreOk(sys.store) && Agree(sys.store, sys.cache)
  }

  /** Same records, and the same list for every project; an empty list and none count as one. */
  ghost predicate SameCache(c: Cache, d: Cache) {
    c.byId == d.byId && forall project :: Lookup(c, project) == Lookup(d, project)
  }

  // ----- what the tables give -----------------------------------------------------------

  lemma {:induction false} RowsInTable(table: seq<PromptRow>, chat: nat, k: nat)
    requires k < |RowsOf(table, chat)|
    ensures RowsOf(table, chat)[k].id in PromptIds(table)
  {
    var n := |table| - 1;
    if k < |RowsOf(table[..n], chat)| { RowsInTable(table[..n], chat, k); }
    assert PromptIds(table)[|PromptIds(table[..n])|] == table[n].rec.id;
  }

  /** A prompt id belongs to one row of one chat. */
  lemma {:induction false} OneHome(table: seq<PromptRow>, chat: nat, i: nat, other: nat, j: nat)
    requires NoDup(PromptIds(table))
    requires i < |RowsOf(table, chat)| && j < |RowsOf(table, other)|
    requires RowsOf(table, chat)[i].id == RowsOf(table, other)[j].id
    ensures chat == other && i == j
  {
    var n := |table| - 1;
    var init, id := table[..n], table[n].rec.id;
    assert NoDup(PromptIds(init)) && id !in PromptIds(init) by { NoDupSnoc(PromptIds(init), id); }
    if i < |RowsOf(init, chat)| && j < |RowsOf(init, other)| {
      OneHome(init, chat, i, other, j);
    } else if i < |RowsOf(init, chat)| {
      RowsInTable(init, chat, i);
    } else if j < |RowsOf(init, other)| {
      RowsInTable(init, other, j);
    }
  }

  lemma {:induction false} EditKeepsIds(table: seq<PromptRow>, id: nat, edit: Edit)
    ensures PromptIds(EditRows(table, id, edit)) == PromptIds(table)
  {
    if table != [] {
      var n := |table| - 1;
      EditKeepsIds(table[..n], id, edit);
      assert EditRows(table, id, edit)[..|EditRows(table[..n], id, edit)|] == EditRows(table[..n], id, edit);
    }
  }

  lemma {:induction false} DeleteRowIds(table: seq<PromptRow>, id: nat)
    ensures PromptIds(DeleteRow(table, id)) == Without(PromptIds(table), {id})
  {
    if table != [] {
      var n := |table| - 1;
      DeleteRowIds(table[..n], id);
      var rest := DeleteRow(table[..n], id);
      assert PromptIds(table)[..|PromptIds(table[..n])|] == PromptIds(table[..n]);
      if table[n].rec.id == id { assert DeleteRow(table, id) == rest; }
      else { assert DeleteRow(table, id)[..|rest|] == rest; }
    }
  }

  lemma {:induction false} DeleteRowsIds(table: seq<PromptRow>, ids: seq<nat>)
    requires NoDup(PromptIds(table))
    ensures NoDup(PromptIds(DeleteRows(table, ids)))
    ensures forall id | id in PromptIds(DeleteRows(table, ids)) :: id in PromptIds(table)
  {
    if ids != [] {
      var n := |ids| - 1;
      var rest := DeleteRows(table, ids[..n]);
      DeleteRowsIds(table, ids[..n]);
      DeleteRowIds(rest, ids[n]);
      WithoutNoDup(PromptIds(rest), {ids[n]});
      forall id | id in PromptIds(DeleteRows(table, ids)) ensures id in PromptIds(table) {
        WithoutIn(PromptIds(rest), {ids[n]}, id);
      }
    }
  }

  lemma {:induction false} LiveIdsExact(chats: seq<ChatRow>, project: Text)
    ensures NoDup(LiveIds(chats, project))
    ensures forall id: nat :: id in LiveIds(chats, project)
              <==> id < |chats| && !chats[id].deleted && chats[id].meta.project == project
  {
    if chats != [] {
      var n := |chats| - 1;
      LiveIdsExact(chats[..n], project);
      NoDupSnoc(LiveIds(chats[..n], project), n);
    }
  }

  // ----- hydration gives an agreeing cache, and only one --------------------------------

  lemma {:induction false} HydrateAgrees(chats: seq<ChatRow>, table: seq<PromptRow>, id: nat)
    requires forall chat: nat :: Numbered(RowsOf(table, chat))
    ensures var c := HydrateRows(chats, table);
            && (id in c.byId <==> id < |chats| && !chats[id].deleted)
            && (id in c.byId ==> c.byId[id] == Chat(id, chats[id].meta, RowsOf(table, id)))
  {
    if chats != [] {
      HydrateAgrees(chats[..|chats| - 1], table, id);
      NumberedIsSorted(RowsOf(table, |chats| - 1));
    }
  }

  lemma {:induction false} HydrateLists(chats: seq<ChatRow>, table: seq<PromptRow>, project: Text)
    ensures Lookup(HydrateRows(chats, table), project) == LiveIds(chats, project)
  {
    if chats != [] { HydrateLists(chats[..|chats| - 1], table, project); }
  }

  lemma HydratedAgrees(s: Store)
    requires StoreOk(s)
    ensures Agree(s, Hydrated(s))
  {
    forall id: nat ensures ChatAgrees(s, Hydrated(s), id) { HydrateAgrees(s.chats, s.prompts, id); }
    forall project ensures Lookup(Hydrated(s), project) == LiveIds(s.chats, project) {
      HydrateLists(s.chats, s.prompts, project);
    }
  }

  lemma AgreeIsUnique(s: Store, c: Cache, d: Cache)
    requires Agree(s, c) && Agree(s, d)
    ensures SameCache(c, d)
  {
    assert c.byId.Keys == d.byId.Keys by {
      forall id: nat ensures id in c.byId <==> id in d.byId {
        assert ChatAgrees(s, c, id) && ChatAgrees(s, d, id);
      }
    }
    forall id | id in c.byId ensures c.byId[id] == d.byId[id] {
      assert ChatAgrees(s, c, id) && ChatAgrees(s, d, id);
    }
  }

  lemma AgreeIsIndexed(s: Store, c: Cache)
    requires Agree(s, c)
    ensures Indexed(c)
  {
    forall id | id in c.byId ensures c.byId[id].id == id { assert ChatAgrees(s, c, id); }
    forall project ensures NoDup(Lookup(c, project)) { LiveIdsExact(s.chats, project); }
    forall project, id: nat ensures id in Lookup(c, project) <==> Has(c, project, id) {
      LiveIdsExact(s.chats, project);
      assert ChatAgrees(s, c, id);
    }
  }

  // ----- every request keeps cache and store in agreement -------------------------------

  /** A request that changes the prompts of one chat, alike in both places. */
  lemma OneChatChanged(s: Store, t: Store, c: Cache, chat: nat, recs: seq<PromptRecord>)
    requires Sound(System(s, c)) && t.chats == s.chats && chat < |s.chats|
    requires NoDup(PromptIds(t.prompts)) && forall id | id in PromptIds(t.prompts) :: id < t.issued
    requires RowsOf(t.prompts, chat) == recs && Numbered(recs)
    requires forall other: nat | other != chat :: RowsOf(t.prompts, other) == RowsOf(s.prompts, other)
    ensures Sound(System(t, SetPrompts(c, chat, recs)))
  {
    var d := SetPrompts(c, chat, recs);
    forall id: nat ensures ChatAgrees(t, d, id) { assert ChatAgrees(s, c, id); }
    forall id: nat ensures Numbered(RowsOf(t.prompts, id)) { assert Numbered(RowsOf(s.prompts, id)); }
    forall project ensures Lookup(d, project) == LiveIds(t.chats, project) {
      assert Lookup(c, project) == LiveIds(s.chats, project);
    }
  }

  lemma SendKeeps(sys: System, chat: nat, content: Text)
    requires Sound(sys)
    ensures Sound(StepSend(sys, chat, content))
  {
    if chat >= |sys.store.chats| { return; }
    var s, rec := sys.store, NextPrompt(sys.store, chat, content);
    SendRows(s, chat, rec);
    OneChatChanged(s, AddPrompt(s, chat, content), sys.cache, chat, RowsOf(s.prompts, chat) + [rec]);
    assert ChatAgrees(s, sys.cache, chat);
  }

  lemma SendRows(s: Store, chat: nat, rec: PromptRecord)
    requires StoreOk(s) && rec.id == s.issued && rec.num == MaxNum(RowsOf(s.prompts, chat)) + 1
    ensures var table := s.prompts + [PromptRow(chat, rec)];
            && NoDup(PromptIds(table))
            && (forall id | id in PromptIds(table) :: id <= s.issued)
            && RowsOf(table, chat) == RowsOf(s.prompts, chat) + [rec] && Numbered(RowsOf(table, chat))
            && forall other: nat | other != chat :: RowsOf(table, other) == RowsOf(s.prompts, other)
  {
    var table := s.prompts + [PromptRow(chat, rec)];
    assert table[..|s.prompts|] == s.prompts;
    NoDupSnoc(PromptIds(s.prompts), rec.id);
    assert Numbered(RowsOf(s.prompts, chat));
    NumberedMax(RowsOf(s.prompts, chat));
  }

  lemma EditOne(table: seq<PromptRow>, chat: nat, k: nat, edit: Edit)
    requires NoDup(PromptIds(table)) && k < |RowsOf(table, chat)|
    ensures var recs := RowsOf(table, chat);
            RowsOf(EditRows(table, recs[k].id, edit), chat) == recs[k := Edited(recs[k], edit)]
    ensures forall other: nat | other != chat ::
              RowsOf(EditRows(table, RowsOf(table, chat)[k].id, edit), other) == RowsOf(table, other)
    ensures NoDup(PromptIds(EditRows(table, RowsOf(table, chat)[k].id, edit)))
    ensures PromptIds(EditRows(table, RowsOf(table, chat)[k].id, edit)) == PromptIds(table)
  {
    var recs := RowsOf(table, chat);
    var id := recs[k].id;
    EditKeepsIds(table, id, edit);
    EditRowsOf(table, id, edit, chat);
    forall i | 0 <= i < |recs| && recs[i].id == id ensures i == k { OneHome(table, chat, i, chat, k); }
    forall other: nat | other != chat ensures RowsOf(EditRows(table, id, edit), other) == RowsOf(table, other) {
      EditRowsOf(table, id, edit, other);
      var theirs := RowsOf(table, other);
      forall i | 0 <= i < |theirs| ensures theirs[i].id != id {
        if theirs[i].id == id { OneHome(table, other, i, chat, k); }
      }
      assert EditRecs(theirs, id, edit) == theirs;
    }
  }

  lemma FinishKeeps(sys: System, chat: nat, prompt: nat, evs: seq<AgentEvent>)
    requires Sound(sys)
    ensures Sound(StepFinish(sys, chat, prompt, evs))
  {
    if chat !in sys.cache.byId { return; }
    assert ChatAgrees(sys.store, sys.cache, chat);
    var recs := sys.cache.byId[chat].prompts;
    var k := FindPrompt(recs, prompt);
    if k.Some? {
      var edit := SetEvents(AppendAll(recs[k.value].events, evs));
      EditOne(sys.store.prompts, chat, k.value, edit);
      OneChatChanged(sys.store, EditPrompt(sys.store, prompt, edit), sys.cache, chat,
                     recs[k.value := Edited(recs[k.value], edit)]);
    }
  }

  lemma RetryKeeps(sys: System, chat: nat)
    requires Sound(sys)
    ensures Sound(StepRetry(sys, chat))
  {
    if chat !in sys.cache.byId || sys.cache.byId[chat].prompts == [] { return; }
    assert ChatAgrees(sys.store, sys.cache, chat);
    var recs := sys.cache.byId[chat].prompts;
    var k := |recs| - 1;
    var mid := EditPrompt(sys.store, recs[k].id, SetEvents([]));
    EditOne(sys.store.prompts, chat, k, SetEvents([]));
    EditOne(mid.prompts, chat, k, SetTouched([]));
    assert Retried(recs) == recs[k := Reset(recs[k])];
    OneChatChanged(sys.store, EditPrompt(mid, recs[k].id, SetTouched([])), sys.cache, chat, Retried(recs));
  }

  function KeepOut(recs: seq<PromptRecord>, gone: set<nat>): seq<PromptRecord> {
    if recs == [] then []
    else
      var last := recs[|recs| - 1];
      KeepOut(recs[..|recs| - 1], gone) + if last.id in gone then [] else [last]
  }

  lemma {:induction false} DropOneMore(recs: seq<PromptRecord>, gone: set<nat>, id: nat)
    ensures DropRec(KeepOut(recs, gone), id) == KeepOut(recs, gone + {id})
  {
    if recs != [] {
      var n := |recs| - 1;
      DropOneMore(recs[..n], gone, id);
      var kept := KeepOut(recs[..n], gone);
      if recs[n].id in gone { assert KeepOut(recs, gone) == kept; } else { DropSnoc(kept, recs[n], id); }
    }
  }

  lemma {:induction false} KeepOutNone(recs: seq<PromptRecord>)
    ensures KeepOut(recs, {}) == recs
  {
    if recs != [] {
      KeepOutNone(recs[..|recs| - 1]);
      assert recs == recs[..|recs| - 1] + [recs[|recs| - 1]];
    }
  }

  lemma {:induction false} DropAll(recs: seq<PromptRecord>, ids: seq<nat>)
    ensures DropRecs(recs, ids) == KeepOut(recs, Elems(ids))
  {
    if ids == [] {
      assert Elems(ids) == {};
      KeepOutNone(recs);
    } else {
      var n := |ids| - 1;
      DropAll(recs, ids[..n]);
      DropOneMore(recs, Elems(ids[..n]), ids[n]);
      assert ids == ids[..n] + [ids[n]];
      assert Elems(ids) == Elems(ids[..n]) + {ids[n]};
    }
  }

  lemma {:induction false} KeepOutIsBefore(recs: seq<PromptRecord>, gone: set<nat>, num: nat)
    requires forall k | 0 <= k < |recs| :: recs[k].id in gone <==> recs[k].num >= num
    ensures KeepOut(recs, gone) == Before(recs, num)
  {
    if recs != [] { KeepOutIsBefore(recs[..|recs| - 1], gone, num); }
  }

  lemma {:induction false} RemovedExactly(recs: seq<PromptRecord>, num: nat, id: nat)
    ensures id in RemovedIds(recs, num) <==> exists k :: 0 <= k < |recs| && recs[k].id == id && recs[k].num >= num
  {
    if recs != [] {
      var n := |recs| - 1;
      RemovedExactly(recs[..n], num, id);
      assert recs == recs[..n] + [recs[n]];
      if k :| 0 <= k < n && recs[..n][k].id == id && recs[..n][k].num >= num {
        assert recs[k].id == id && recs[k].num >= num;
      }
      if k :| 0 <= k < |recs| && recs[k].id == id && recs[k].num >= num {
        if k < n { assert recs[..n][k].id == id && recs[..n][k].num >= num; }
      }
    }
  }

  lemma {:induction false} BeforeIsPrefix(recs: seq<PromptRecord>, num: nat)
    requires Numbered(recs)
    ensures Before(recs, num) <= recs && Numbered(Before(recs, num))
  {
    if recs != [] {
      var n := |recs| - 1;
      BeforeIsPrefix(recs[..n], num);
      if n + 1 < num { BeforeAll(recs[..n], num); }
      assert recs == recs[..n] + [recs[n]];
    }
  }

  lemma {:induction false} BeforeAll(recs: seq<PromptRecord>, num: nat)
    requires Numbered(recs) && |recs| < num
    ensures Before(recs, num) == recs
  {
    if recs != [] {
      BeforeAll(recs[..|recs| - 1], num);
      assert recs == recs[..|recs| - 1] + [recs[|recs| - 1]];
    }
  }

  lemma TruncatedRows(table: seq<PromptRow>, chat: nat, num: nat, other: nat)
    requires NoDup(PromptIds(table))
    ensures RowsOf(DeleteRows(table, RemovedIds(RowsOf(table, chat), num)), other)
         == if other == chat then Before(RowsOf(table, chat), num) else RowsOf(table, other)
  {
    var recs, theirs := RowsOf(table, chat), RowsOf(table, other);
    var gone := RemovedIds(recs, num);
    DeleteRowsOf(table, gone, other);
    if other == chat {
      DropAll(recs, gone);
      forall k | 0 <= k < |recs| ensures recs[k].id in Elems(gone) <==> recs[k].num >= num {
        RemovedExactly(recs, num, recs[k].id);
        if recs[k].id in gone {
          var j :| 0 <= j < |recs| && recs[j].id == recs[k].id && recs[j].num >= num;
          OneHome(table, chat, j, chat, k);
        }
      }
      KeepOutIsBefore(recs, Elems(gone), num);
    } else {
      forall k | 0 <= k < |theirs| ensures theirs[k].id !in gone {
        RemovedExactly(recs, num, theirs[k].id);
        if theirs[k].id in gone {
          var j :| 0 <= j < |recs| && recs[j].id == theirs[k].id && recs[j].num >= num;
          OneHome(table, chat, j, other, k);
        }
      }
      DropAbsent(theirs, gone);
    }
  }

  lemma TruncateKeeps(sys: System, chat: nat, num: nat)
    requires Sound(sys)
    ensures Sound(StepTruncate(sys, chat, num))
  {
    if chat !in sys.cache.byId { return; }
    assert ChatAgrees(sys.store, sys.cache, chat);
    var recs, table := sys.cache.byId[chat].prompts, sys.store.prompts;
    var gone := RemovedIds(recs, num);
    var t := DeletePrompts(sys.store, gone);
    DeleteRowsIds(table, gone);
    forall other: nat
      ensures RowsOf(t.prompts, other) == if other == chat then Before(recs, num) else RowsOf(table, other) {
      TruncatedRows(table, chat, num, other);
    }
    BeforeIsPrefix(recs, num);
    OneChatChanged(sys.store, t, sys.cache, chat, Before(recs, num));
  }

  lemma CreateKeeps(sys: System, meta: Meta)
    requires Sound(sys)
    ensures Sound(StepCreate(sys, meta))
  {
    if meta.title == [] { return; }
    var s, c, n := sys.store, sys.cache, |sys.store.chats|;
    var next := StepCreate(sys, meta);
    assert next.store.chats[..n] == s.chats;
    forall id: nat ensures ChatAgrees(next.store, next.cache, id) {
      assert ChatAgrees(s, c, id);
      assert RowsOf(s.prompts, n) == [];
    }
    forall project ensures Lookup(next.cache, project) == LiveIds(next.store.chats, project) {
      assert Lookup(c, project) == LiveIds(s.chats, project);
    }
  }

  lemma {:induction false} SameLiveIds(xs: seq<ChatRow>, ys: seq<ChatRow>, project: Text)
    requires |xs| == |ys|
    requires forall k | 0 <= k < |xs| :: xs[k].deleted == ys[k].deleted && xs[k].meta.project == ys[k].meta.project
    ensures LiveIds(xs, project) == LiveIds(ys, project)
  {
    if xs != [] { SameLiveIds(xs[..|xs| - 1], ys[..|ys| - 1], project); }
  }

  lemma UpdateKeeps(sys: System, chat: nat, title: Option<Text>, model: Option<Text>,
      effort: Option<Option<Text>>, session: Option<Option<Text>>)
    requires Sound(sys)
    ensures Sound(StepUpdate(sys, chat, title, model, effort, session))
  {
    if chat >= |sys.store.chats| { return; }
    var next := StepUpdate(sys, chat, title, model, effort, session);
    assert ChatAgrees(sys.store, sys.cache, chat);
    forall id: nat ensures ChatAgrees(next.store, next.cache, id) { assert ChatAgrees(sys.store, sys.cache, id); }
    forall project ensures Lookup(next.cache, project) == LiveIds(next.store.chats, project) {
      assert Lookup(sys.cache, project) == LiveIds(sys.store.chats, project);
      SameLiveIds(sys.store.chats, next.store.chats, project);
    }
  }

  /** Deleting marks rows; the lists lose exactly the marked ids. */
  lemma {:induction false} MarkedLiveIds(xs: seq<ChatRow>, ys: seq<ChatRow>, gone: set<nat>, project: Text)
    requires |xs| == |ys|
    requires forall k | 0 <= k < |xs| :: ys[k].meta == xs[k].meta && ys[k].deleted == (xs[k].deleted || k in gone)
    ensures LiveIds(ys, project) == Without(LiveIds(xs, project), gone)
  {
    if xs != [] {
      var n := |xs| - 1;
      MarkedLiveIds(xs[..n], ys[..n], gone, project);
      WithoutSnoc(LiveIds(xs[..n], project), gone, n);
    }
  }

  lemma WithoutSnoc(ids: seq<nat>, gone: set<nat>, id: nat)
    ensures Without(ids + [id], gone) == Without(ids, gone) + if id in gone then [] else [id]
    ensures Without(ids + [], gone) == Without(ids, gone)
  {
    assert (ids + [id])[..|ids|] == ids;
    assert ids + [] == ids;
  }

  /** Deleting chats, marked in the store and dropped from the cache. */
  lemma DeletionKeeps(s: Store, t: Store, c: Cache, d: Cache, gone: set<nat>)
    requires Sound(System(s, c)) && t.prompts == s.prompts && t.issued == s.issued && |t.chats| == |s.chats|
    requires forall k | 0 <= k < |s.chats| ::
               t.chats[k].meta == s.chats[k].meta && t.chats[k].deleted == (s.chats[k].deleted || k in gone)
    requires d.byId == c.byId - gone
    requires forall project :: Lookup(d, project) == Without(Lookup(c, project), gone)
    ensures Sound(System(t, d))
  {
    forall id: nat ensures ChatAgrees(t, d, id) { assert ChatAgrees(s, c, id); }
    forall project ensures Lookup(d, project) == LiveIds(t.chats, project) {
      MarkedLiveIds(s.chats, t.chats, gone, project);
      assert Lookup(c, project) == LiveIds(s.chats, project);
    }
  }

  lemma DeleteKeeps(sys: System, chat: nat)
    requires Sound(sys)
    ensures Sound(Step(sys, Delete(chat)))
  {
    var next := Step(sys, Delete(chat));
    AgreeIsIndexed(sys.store, sys.cache);
    EvictKeepsIndex(sys.cache, chat);
    assert ChatAgrees(sys.store, sys.cache, chat);
    DeletionKeeps(sys.store, next.store, sys.cache, next.cache, {chat});
  }

  lemma {:induction false} DeleteChatsMarks(s: Store, ids: seq<nat>)
    ensures var t := DeleteChats(s, ids);
            && t.prompts == s.prompts && t.issued == s.issued && |t.chats| == |s.chats|
            && forall k | 0 <= k < |s.chats| ::
                 t.chats[k].meta == s.chats[k].meta && t.chats[k].deleted == (s.chats[k].deleted || k in ids)
  {
    if ids != [] {
      var n := |ids| - 1;
      DeleteChatsMarks(s, ids[..n]);
      assert ids == ids[..n] + [ids[n]];
    }
  }

  lemma DeleteProjectKeeps(sys: System, project: Text)
    requires Sound(sys)
    ensures Sound(StepDeleteProject(sys, project))
  {
    var next, ids := StepDeleteProject(sys, project), LiveIds(sys.store.chats, project);
    var gone := ChatsOf(sys.cache, project);
    DeleteChatsMarks(sys.store, ids);
    forall id: nat ensures id in ids <==> id in gone {
      LiveIdsExact(sys.store.chats, project);
      assert ChatAgrees(sys.store, sys.cache, id);
    }
    forall p ensures Lookup(next.cache, p) == Without(Lookup(sys.cache, p), gone) {
    }
    DeletionKeeps(sys.store, next.store, sys.cache, next.cache, gone);
  }

  lemma StepKeeps(sys: System, op: Op)
    requires Sound(sys)
    ensures Sound(Step(sys, op))
  {
    match op
    case Create(meta) => CreateKeeps(sys, meta);
    case Send(chat, content) => SendKeeps(sys, chat, content);
    case FinishTurn(chat, prompt, evs) => FinishKeeps(sys, chat, prompt, evs);
    case Retry(chat) => RetryKeeps(sys, chat);
    case Update(chat, title, model, effort, session) => UpdateKeeps(sys, chat, title, model, effort, session);
    case Truncate(chat, num) => TruncateKeeps(sys, chat, num);
    case Delete(chat) => DeleteKeeps(sys, chat);
    case DeleteProject(project) => DeleteProjectKeeps(sys, project);
    case Reboot => HydratedAgrees(sys.store);
  }

  lemma {:induction false} RunsSound(ops: seq<Op>)
    ensures Sound(Runs(ops))
  {
    if ops != [] {
      RunsSound(ops[..|ops| - 1]);
      StepKeeps(Runs(ops[..|ops| - 1]), ops[|ops| - 1]);
    }
  }

  /** A restart is invisible: after any completed requests, and restarts in between, the cache
      rebuilt from the store is the cache in memory: same metadata, prompts, events and lists. */
  lemma RestartIsInvisible(ops: seq<Op>)
    ensures SameCache(Hydrated(Runs(ops).store), Runs(ops).cache)
    ensures Indexed(Runs(ops).cache)
  {
    RunsSound(ops);
    HydratedAgrees(Runs(ops).store);
    AgreeIsUnique(Runs(ops).store, Hydrated(Runs(ops).store), Runs(ops).cache);
    AgreeIsIndexed(Runs(ops).store, Runs(ops).cache);
  }

  /** The prompts of every chat are numbered 1 to n, in the cache and in the store. */
  lemma PromptsStayNumbered(ops: seq<Op>, chat: nat)
    ensures Numbered(RowsOf(Runs(ops).store.prompts, chat))
    ensures chat in Runs(ops).cache.byId ==> Numbered(Runs(ops).cache.byId[chat].prompts)
  {
    RunsSound(ops);
    assert ChatAgrees(Runs(ops).store, Runs(ops).cache, chat);
  }

  /** An update leaves a session behind exactly when the caller names one, or the model stays the
      same and there was one; in the cache and in the store. */
  lemma SessionAfterUpdate(sys: System, chat: nat, title: Option<Text>, model: Option<Text>,
      effort: Option<Option<Text>>, session: Option<Option<Text>>)
    requires Sound(sys) && chat in sys.cache.byId
    ensures var was := sys.cache.byId[chat].meta;
            var next := StepUpdate(sys, chat, title, model, effort, session);
            var now := if session.Some? then session.value
                       else if model.Some? && model.value != was.model then None else was.session;
            && chat in next.cache.byId && next.cache.byId[chat].meta.session == now
            && chat < |next.store.chats| && next.store.chats[chat].meta.session == now
  {
    assert ChatAgrees(sys.store, sys.cache, chat);
  }

  // ----- where the promise stops --------------------------------------------------------

  /** Stopping a turn that left no terminal event appends the same error to the stored array and to
      the bounded buffer; the two still agree exactly when the buffer had room. */
  lemma StuckTurnRepairIff(events: seq<AgentEvent>, err: AgentEvent)
    ensures events + [err] == Append(events, err)
       <==> |events| < if HasSentinel(events) then SLOTS_WITH_SENTINEL else MAX_EVENTS
  {
    if HasSentinel(events) && |events| >= SLOTS_WITH_SENTINEL {
      assert |Append(events, err)| == |events|;
    } else if !HasSentinel(events) && |events| >= MAX_EVENTS {
      assert Append(events, err)[0].Truncated? && (events + [err])[0] == events[0];
    }
  }

  function StepRestore(sys: System, chat: nat): System {
    if chat >= |sys.store.chats| || !sys.store.chats[chat].deleted then sys
    else
      var row := sys.store.chats[chat].(deleted := false);
      System(sys.store.(chats := sys.store.chats[chat := row]), Ingest(sys.cache, Chat(chat, row.meta, [])))
  }

  lemma {:induction false} LiveIdsRise(chats: seq<ChatRow>, project: Text, i: nat, j: nat)
    requires i < j < |LiveIds(chats, project)|
    ensures LiveIds(chats, project)[i] < LiveIds(chats, project)[j]
  {
    var n := |chats| - 1;
    LiveIdsExact(chats[..n], project);
    if j < |LiveIds(chats[..n], project)| {
      LiveIdsRise(chats[..n], project, i, j);
    } else {
      assert LiveIds(chats[..n], project)[i] in LiveIds(chats[..n], project);
    }
  }

  predicate NewestOfProject(chats: seq<ChatRow>, chat: nat)
    requires chat < |chats|
  {
    forall k | chat < k < |chats| :: chats[k].deleted || chats[k].meta.project != chats[chat].meta.project
  }

  lemma {:induction false} RestoredLast(xs: seq<ChatRow>, chat: nat)
    requires chat < |xs| && xs[chat].deleted && NewestOfProject(xs, chat)
    ensures var project := xs[chat].meta.project;
            LiveIds(xs[chat := xs[chat].(deleted := false)], project) == LiveIds(xs, project) + [chat]
  {
    var n, project := |xs| - 1, xs[chat].meta.project;
    var ys := xs[chat := xs[chat].(deleted := false)];
    if chat == n {
      assert ys[..n] == xs[..n];
    } else {
      assert ys[..n] == xs[..n][chat := xs[chat].(deleted := false)];
      assert NewestOfProject(xs[..n], chat);
      RestoredLast(xs[..n], chat);
      assert LiveIds(ys, project) == LiveIds(ys[..n], project);
      assert LiveIds(xs, project) == LiveIds(xs[..n], project);
    }
  }

  /** Restoring a chat takes it into the cache without its prompts and last in its project. A
      restart shows no difference exactly when it has no prompts and no younger live chat. */
  lemma RestoreInvisibleIff(sys: System, chat: nat)
    requires Sound(sys) && chat < |sys.store.chats| && sys.store.chats[chat].deleted
    ensures SameCache(Hydrated(StepRestore(sys, chat).store), StepRestore(sys, chat).cache)
       <==> RowsOf(sys.store.prompts, chat) == [] && NewestOfProject(sys.store.chats, chat)
  {
    var next := StepRestore(sys, chat);
    var s, t, d := sys.store, next.store, next.cache;
    var project := s.chats[chat].meta.project;
    HydratedAgrees(t);
    assert ChatAgrees(t, Hydrated(t), chat);
    assert d.byId[chat].prompts == [];
    assert Lookup(sys.cache, project) == LiveIds(s.chats, project);
    assert Lookup(d, project) == LiveIds(s.chats, project) + [chat];
    assert Lookup(Hydrated(t), project) == LiveIds(t.chats, project);
    if !NewestOfProject(s.chats, chat) {
      var k :| chat < k < |s.chats| && !s.chats[k].deleted && s.chats[k].meta.project == project;
      assert !t.chats[k].deleted && t.chats[k].meta.project == project;
      YoungerComesLater(t.chats, project, chat, LiveIds(s.chats, project));
    } else if RowsOf(s.prompts, chat) == [] {
      RestoredLast(s.chats, chat);
      forall id: nat ensures ChatAgrees(t, d, id) { assert ChatAgrees(s, sys.cache, id); }
      forall p ensures Lookup(d, p) == LiveIds(t.chats, p) {
        assert Lookup(sys.cache, p) == LiveIds(s.chats, p);
        if p != project { OtherProjectSame(s.chats, chat, p); }
      }
      AgreeIsUnique(t, Hydrated(t), d);
    }
  }

  lemma {:induction false} OtherProjectSame(xs: seq<ChatRow>, chat: nat, project: Text)
    requires chat < |xs| && xs[chat].meta.project != project
    ensures LiveIds(xs[chat := xs[chat].(deleted := false)], project) == LiveIds(xs, project)
  {
    var n := |xs| - 1;
    var ys := xs[chat := xs[chat].(deleted := false)];
    if chat == n { assert ys[..n] == xs[..n]; }
    else {
      assert ys[..n] == xs[..n][chat := xs[chat].(deleted := false)];
      OtherProjectSame(xs[..n], chat, project);
    }
  }

  lemma YoungerComesLater(chats: seq<ChatRow>, project: Text, chat: nat, others: seq<nat>)
    requires chat < |chats| && chats[chat].meta.project == project && !NewestOfProject(chats, chat)
    ensures LiveIds(chats, project) != others + [chat]
  {
    var ids := LiveIds(chats, project);
    var k :| chat < k < |chats| && !chats[k].deleted && chats[k].meta.project == project;
    LiveIdsExact(chats, project);
    var i :| 0 <= i < |ids| && ids[i] == k;
    if i < |ids| - 1 { LiveIdsRise(chats, project, i, |ids| - 1); }
    assert ids[|ids| - 1] > chat;
    assert (others + [chat])[|others|] == chat;
  }

  // ----- the requests as the server runs them -------------------------------------------

  class Service {
    const repo: ChatRepo
    const registry: Registry

    constructor ()
      ensures fresh(repo) && fresh(registry) && View() == START && Valid()
    {
      repo := new ChatRepo();
      registry := new Registry();
      new;
      RunsSound([]);
    }

    function View(): System
      reads repo, registry
    {
      System(repo.View(), registry.View())
    }

    ghost predicate Valid()
      reads repo, registry
    {
      Sound(View())
    }

    /** Store first: the id it issues is the one the cache uses. */
    method CreateChat(meta: Meta) returns (id: Option<nat>)
      requires Valid()
      modifies repo, registry
      ensures Valid() && View() == Step(old(View()), Create(meta))
      ensures id.Some? <==> meta.title != []
    {
      StepKeeps(View(), Create(meta));
      AgreeIsIndexed(repo.View(), registry.View());
      assert ChatAgrees(repo.View(), registry.View(), |repo.chats|);
      id := repo.Create(meta);
      if id.Some? { registry.IngestChat(Chat(id.value, meta.(session := None), [])); }
    }

    method SendPrompt(chat: nat, content: Text) returns (prompt: Option<PromptRecord>)
      requires Valid()
      modifies repo, registry
      ensures Valid() && View() == Step(old(View()), Send(chat, content))
      ensures prompt.Some? <==> chat in old(registry.byId)
      ensures prompt.Some? ==>
        && prompt.value.content == content && prompt.value.events == [] && prompt.value.touched == []
        && prompt.value.num == |old(registry.byId)[chat].prompts| + 1 && chat in registry.byId
        && registry.byId[chat].prompts == old(registry.byId)[chat].prompts + [prompt.value]
        && repo.prompts == old(repo.prompts) + [PromptRow(chat, prompt.value)]
    {
      StepKeeps(View(), Send(chat, content));
      AgreeIsIndexed(repo.View(), registry.View());
      assert ChatAgrees(repo.View(), registry.View(), chat);
      if chat in registry.byId { NumberedMax(registry.byId[chat].prompts); }
      prompt := repo.Add(chat, content);
      if prompt.Some? {
        var found := registry.IngestPrompt(chat, prompt.value);
        if !found { prompt := None; }
      }
    }

    /** The events of a turn arrive one by one; at its end the prompt's log is written out. */
    method RunTurn(chat: nat, prompt: nat, evs: seq<AgentEvent>)
      requires Valid()
      modifies repo, registry
      ensures Valid() && View() == Step(old(View()), FinishTurn(chat, prompt, evs))
    {
      StepKeeps(View(), FinishTurn(chat, prompt, evs));
      AgreeIsIndexed(repo.View(), registry.View());
      ghost var c := registry.View();
      AppendedNone(c, chat, prompt);
      for n := 0 to |evs|
        invariant registry.Valid() && repo.View() == old(repo.View())
        invariant registry.View() == Appended(c, chat, prompt, evs[..n])
      {
        AppendedSnoc(c, chat, prompt, evs[..n], evs[n]);
        assert evs[..n + 1] == evs[..n] + [evs[n]];
        registry.AppendEvent(chat, prompt, evs[n]);
      }
      assert evs[..|evs|] == evs;
      if chat in c.byId { AppendedFinds(c, chat, prompt, evs); }
      if chat in registry.byId {
        var k := FindPrompt(registry.byId[chat].prompts, prompt);
        if k.Some? { repo.Write(prompt, SetEvents(registry.byId[chat].prompts[k.value].events)); }
      }
    }

    method RetryChat(chat: nat) returns (prompt: Option<PromptRecord>)
      requires Valid()
      modifies repo, registry
      ensures Valid() && View() == Step(old(View()), Retry(chat))
      ensures prompt.Some? ==> prompt.value.events == [] && prompt.value.touched == []
    {
      StepKeeps(View(), Retry(chat));
      AgreeIsIndexed(repo.View(), registry.View());
      prompt := registry.RetryPrompt(chat);
      if prompt.Some? {
        repo.Write(prompt.value.id, SetEvents(prompt.value.events));
        repo.Write(prompt.value.id, SetTouched([]));
      }
    }

    method UpdateChat(chat: nat, title: Option<Text>, model: Option<Text>,
        effort: Option<Option<Text>>, session: Option<Option<Text>>) returns (found: bool)
      requires Valid()
      modifies repo, registry
      ensures Valid() && View() == Step(old(View()), Update(chat, title, model, effort, session))
    {
      StepKeeps(View(), Update(chat, title, model, effort, session));
      AgreeIsIndexed(repo.View(), registry.View());
      var changes := model.Some? && (chat !in registry.byId || registry.byId[chat].meta.model != model.value);
      var effective := if changes && session.None? then Some(None) else session;
      found := repo.Update(chat, title, model, effort, effective);
      if found && chat in registry.byId {
        var m := registry.byId[chat].meta;
        if title.Some? { m := m.(title := title.value); }
        if model.Some? && m.model != model.value { m := m.(model := model.value, session := None); }
        if effort.Some? { m := m.(effort := effort.value); }
        if effective.Some? { m := m.(session := effective.value); }
        registry.UpdateMeta(chat, m);
      }
    }

    /** Cache first; then the store deletes the removed prompts one by one. */
    method TruncateChat(chat: nat, num: nat) returns (removed: Option<seq<nat>>)
      requires Valid()
      modifies repo, registry
      ensures Valid() && View() == Step(old(View()), Truncate(chat, num))
      ensures removed.Some? <==> chat in old(registry.byId)
    {
      StepKeeps(View(), Truncate(chat, num));
      AgreeIsIndexed(repo.View(), registry.View());
      removed := registry.TruncateFromSeq(chat, num);
      if removed.None? { return; }
      DeleteEach(removed.value);
    }

    /** One statement for each removed prompt. */
    method DeleteEach(ids: seq<nat>)
      modifies repo
      ensures repo.View() == DeletePrompts(old(repo.View()), ids)
    {
      for n := 0 to |ids|
        invariant repo.View() == DeletePrompts(old(repo.View()), ids[..n])
      {
        assert ids[..n + 1][..n] == ids[..n];
        repo.DeletePrompt(ids[n]);
      }
      assert ids[..|ids|] == ids;
    }

    method DeleteChat(chat: nat) returns (removed: bool)
      requires Valid()
      modifies repo, registry
      ensures Valid() && View() == Step(old(View()), Delete(chat))
      ensures removed <==> chat in old(registry.byId)
    {
      StepKeeps(View(), Delete(chat));
      AgreeIsIndexed(repo.View(), registry.View());
      assert ChatAgrees(repo.View(), registry.View(), chat);
      removed := repo.Delete(chat);
      registry.Remove(chat);
    }

    method DeleteProjectChats(project: Text)
      requires Valid()
      modifies repo, registry
      ensures Valid() && View() == Step(old(View()), DeleteProject(project))
    {
      StepKeeps(View(), DeleteProject(project));
      AgreeIsIndexed(repo.View(), registry.View());
      var ids := LiveIds(repo.chats, project);
      for n := 0 to |ids|
        invariant registry.View() == old(registry.View())
        invariant repo.View() == DeleteChats(old(repo.View()), ids[..n])
      {
        assert ids[..n + 1][..n] == ids[..n];
        var _ := repo.Delete(ids[n]);
      }
      assert ids[..|ids|] == ids;
      var keep := (c: Chat) => c.meta.project != project;
      assert Rejected(registry.byId, keep) == ChatsOf(registry.View(), project);
      registry.RetainChats(keep);
    }
  }

  /** A server start: reads the rows back, oldest first, into an empty registry. */
  method Hydrate(repo: ChatRepo) returns (registry: Registry)
    requires StoreOk(repo.View())
    ensures fresh(registry) && registry.Valid() && registry.View() == Hydrated(repo.View())
  {
    registry := new Registry();
    for n := 0 to |repo.chats|
      invariant registry.Valid() && fresh(registry)
      invariant registry.View() == HydrateRows(repo.chats[..n], repo.prompts)
    {
      assert repo.chats[..n + 1][..n] == repo.chats[..n];
      if !repo.chats[n].deleted {
        HydrateAgrees(repo.chats[..n], repo.prompts, n);
        registry.IngestChat(Chat(n, repo.chats[n].meta, ListPrompts(repo.prompts, n)));
      }
    }
    assert repo.chats[..|repo.chats|] == repo.chats;
  }

  function Appended(c: Cache, chat: nat, prompt: nat, evs: seq<AgentEvent>): Cache {
    if chat !in c.byId then c
    else
      var recs := c.byId[chat].prompts;
      match FindPrompt(recs, prompt)
      case None => c
      case Some(k) => SetPrompts(c, chat, recs[k := recs[k].(events := AppendAll(recs[k].events, evs))])
  }

  /** A fresh prompt ends up with the bounded log of its turn. */
  lemma {:induction false} TurnLogIsBuffered(evs: seq<AgentEvent>)
    ensures AppendAll([], evs) == Buffered(evs)
  {
    if evs != [] { TurnLogIsBuffered(evs[..|evs| - 1]); }
  }

  lemma AppendedNone(c: Cache, chat: nat, prompt: nat)
    ensures Appended(c, chat, prompt, []) == c
  {
    if chat in c.byId {
      var recs := c.byId[chat].prompts;
      var k := FindPrompt(recs, prompt);
      if k.Some? {
        assert recs[k.value := recs[k.value].(events := recs[k.value].events)] == recs;
        assert SetPrompts(c, chat, recs).byId == c.byId;
      }
    }
  }

  lemma FindFirst(recs: seq<PromptRecord>, id: nat, k: nat)
    requires k < |recs| && recs[k].id == id && forall j | 0 <= j < k :: recs[j].id != id
    ensures FindPrompt(recs, id) == Some(k)
  {
  }

  lemma AppendedSnoc(c: Cache, chat: nat, prompt: nat, evs: seq<AgentEvent>, ev: AgentEvent)
    ensures AppendIn(Appended(c, chat, prompt, evs), chat, prompt, ev) == Appended(c, chat, prompt, evs + [ev])
  {
    assert (evs + [ev])[..|evs|] == evs;
    if chat in c.byId {
      var recs := c.byId[chat].prompts;
      var k := FindPrompt(recs, prompt);
      if k.Some? {
        var more := recs[k.value := recs[k.value].(events := AppendAll(recs[k.value].events, evs))];
        FindFirst(more, prompt, k.value);
        var last := recs[k.value := recs[k.value].(events := AppendAll(recs[k.value].events, evs + [ev]))];
        assert AppendTo(more, prompt, ev) == last;
        assert SetPrompts(SetPrompts(c, chat, more), chat, last).byId == SetPrompts(c, chat, last).byId;
      } else {
        assert AppendIn(c, chat, prompt, ev).byId == c.byId;
      }
    }
  }

  lemma AppendedFinds(c: Cache, chat: nat, prompt: nat, evs: seq<AgentEvent>)
    requires chat in c.byId
    ensures FindPrompt(Appended(c, chat, prompt, evs).byId[chat].prompts, prompt)
        == FindPrompt(c.byId[chat].prompts, prompt)
  {
    var recs := c.byId[chat].prompts;
    var k := FindPrompt(recs, prompt);
    if k.Some? {
      FindFirst(recs[k.value := recs[k.value].(events := AppendAll(recs[k.value].events, evs))], prompt, k.value);
    }
  }
}
