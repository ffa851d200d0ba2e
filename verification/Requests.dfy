/** What each completed request does to the chats, in memory and, the two agreeing, in the store. */
module Requests {
  import opened Util
  import opened Events
  import opened EventLog
  import opened ChatStore
  import opened ChatRegistry
  import opened Restart

  /** No chat but those in `touched` comes, goes or changes. */
  ghost predicate OthersStay(sys: System, after: System, touched: set<nat>) {
    forall id: nat | id !in touched ::
      && (id in after.cache.byId <==> id in sys.cache.byId)
      && (id in sys.cache.byId ==> after.cache.byId[id] == sys.cache.byId[id])
  }

  /** The chat's prompts, in memory and in the store. */
  ghost predicate Has(sys: System, chat: nat, recs: seq<PromptRecord>) {
    chat in sys.cache.byId && sys.cache.byId[chat].prompts == recs && RowsOf(sys.store.prompts, chat) == recs
  }

  /** The chat's description, in memory and in the store. */
  ghost predicate Describes(sys: System, chat: nat, meta: Meta) {
    && chat in sys.cache.byId && sys.cache.byId[chat].meta == meta && sys.cache.byId[chat].id == chat
    && Live(sys.store, chat) && sys.store.chats[chat].meta == meta
  }

  lemma InBoth(sys: System, chat: nat)
    requires Sound(sys) && chat in sys.cache.byId
    ensures Has(sys, chat, sys.cache.byId[chat].prompts) && Describes(sys, chat, sys.cache.byId[chat].meta)
    ensures Numbered(sys.cache.byId[chat].prompts)
  {
    assert ChatAgrees(sys.store, sys.cache, chat);
  }

  /** A new chat: the next id, the given description without a session, no prompts. */
  lemma CreateAdds(sys: System, meta: Meta)
    requires Sound(sys)
    ensures var t, n := Step(sys, Create(meta)), |sys.store.chats|;
            if meta.title == [] then t == sys
            else Describes(t, n, meta.(session := None)) && Has(t, n, []) && OthersStay(sys, t, {n})
  {
    StepKeeps(sys, Create(meta));
    if meta.title != [] { InBoth(Step(sys, Create(meta)), |sys.store.chats|); }
  }

  /** A sent prompt: one more, with exactly the content sent, no events, a fresh id, and a number one
      above the highest. */
  predicate Fresh(sys: System, rec: PromptRecord, content: Text, recs: seq<PromptRecord>) {
    && rec.content == content && rec.events == [] && rec.touched == []
    && rec.num == |recs| + 1 && (forall k | 0 <= k < |recs| :: recs[k].num < rec.num)
    && forall k | 0 <= k < |sys.store.prompts| :: sys.store.prompts[k].rec.id != rec.id
  }

  lemma SendAdds(sys: System, chat: nat, content: Text) returns (rec: PromptRecord)
    requires Sound(sys) && chat in sys.cache.byId
    ensures var t, recs := Step(sys, Send(chat, content)), sys.cache.byId[chat].prompts;
            && Fresh(sys, rec, content, recs) && Has(t, chat, recs + [rec])
            && Describes(t, chat, sys.cache.byId[chat].meta) && OthersStay(sys, t, {chat})
  {
    InBoth(sys, chat);
    var recs := sys.cache.byId[chat].prompts;
    NumberedMax(recs);
    rec := NextPrompt(sys.store, chat, content);
    StepKeeps(sys, Send(chat, content));
    InBoth(Step(sys, Send(chat, content)), chat);
    forall k | 0 <= k < |sys.store.prompts| ensures sys.store.prompts[k].rec.id != rec.id {
      IdInTable(sys.store.prompts, k);
    }
  }

  lemma {:induction false} IdInTable(table: seq<PromptRow>, k: nat)
    requires k < |table|
    ensures table[k].rec.id in PromptIds(table)
  {
    if k < |table| - 1 { IdInTable(table[..|table| - 1], k); }
  }

  /** A finished turn: the prompt keeps the bounded log of its events, the other prompts stay. */
  lemma FinishStores(sys: System, chat: nat, k: nat, evs: seq<AgentEvent>)
    requires Sound(sys) && chat in sys.cache.byId && k < |sys.cache.byId[chat].prompts|
    requires sys.cache.byId[chat].prompts[k].events == []
    ensures var recs := sys.cache.byId[chat].prompts;
            var t := Step(sys, FinishTurn(chat, recs[k].id, evs));
            && Has(t, chat, recs[k := recs[k].(events := Buffered(evs))])
            && Describes(t, chat, sys.cache.byId[chat].meta) && OthersStay(sys, t, {chat})
  {
    var recs := sys.cache.byId[chat].prompts;
    InBoth(sys, chat);
    OnlyOne(sys.store.prompts, chat, k);
    TurnLogIsBuffered(evs);
    StepKeeps(sys, FinishTurn(chat, recs[k].id, evs));
    InBoth(Step(sys, FinishTurn(chat, recs[k].id, evs)), chat);
  }

  lemma OnlyOne(table: seq<PromptRow>, chat: nat, k: nat)
    requires NoDup(PromptIds(table)) && k < |RowsOf(table, chat)|
    ensures ChatRegistry.FindPrompt(RowsOf(table, chat), RowsOf(table, chat)[k].id) == Some(k)
  {
    var recs := RowsOf(table, chat);
    var f := ChatRegistry.FindPrompt(recs, recs[k].id);
    if f != Some(k) { OneHome(table, chat, f.value, chat, k); }
  }

  /** A retry: the last prompt is as when it was sent, the others stay. */
  lemma RetryClears(sys: System, chat: nat)
    requires Sound(sys) && chat in sys.cache.byId && sys.cache.byId[chat].prompts != []
    ensures var recs, t := sys.cache.byId[chat].prompts, Step(sys, Retry(chat));
            var n := |recs| - 1;
            && Has(t, chat, recs[n := recs[n].(events := [], touched := [])])
            && Describes(t, chat, sys.cache.byId[chat].meta) && OthersStay(sys, t, {chat})
  {
    var recs := sys.cache.byId[chat].prompts;
    var n := |recs| - 1;
    StepKeeps(sys, Retry(chat));
    InBoth(Step(sys, Retry(chat)), chat);
    assert recs[n := recs[n].(events := [], touched := [])] == recs[..n] + [recs[n].(events := [], touched := [])];
  }

  /** An update: each given field, and no other, but for the session of another model. */
  lemma UpdateSets(sys: System, chat: nat, title: Option<Text>, model: Option<Text>,
      effort: Option<Option<Text>>, session: Option<Option<Text>>)
    requires Sound(sys) && chat in sys.cache.byId
    ensures var was, t := sys.cache.byId[chat].meta, Step(sys, Update(chat, title, model, effort, session));
            && chat in t.cache.byId
            && var now := t.cache.byId[chat].meta;
            && Describes(t, chat, now) && Has(t, chat, sys.cache.byId[chat].prompts) && OthersStay(sys, t, {chat})
            && now.title == (if title.Some? then title.value else was.title)
            && now.model == (if model.Some? then model.value else was.model)
            && now.effort == (if effort.Some? then effort.value else was.effort)
            && now.session == (if session.Some? then session.value
                               else if model.Some? && model.value != was.model then None else was.session)
            && now.project == was.project && now.worktree == was.worktree
            && now.provider == was.provider && now.created == was.created
  {
    assert ChatAgrees(sys.store, sys.cache, chat);
    StepKeeps(sys, Update(chat, title, model, effort, session));
    InBoth(Step(sys, Update(chat, title, model, effort, session)), chat);
  }

  /** A truncation: exactly the prompts below the number stay. */
  lemma TruncateCuts(sys: System, chat: nat, num: nat)
    requires Sound(sys) && chat in sys.cache.byId
    ensures var recs, t := sys.cache.byId[chat].prompts, Step(sys, Truncate(chat, num));
            && Has(t, chat, recs[..if num == 0 then 0 else if num <= |recs| then num - 1 else |recs|])
            && Describes(t, chat, sys.cache.byId[chat].meta) && OthersStay(sys, t, {chat})
  {
    InBoth(sys, chat);
    var recs := sys.cache.byId[chat].prompts;
    BeforeIsTake(recs, if num == 0 then 0 else if num <= |recs| then num - 1 else |recs|, num);
    StepKeeps(sys, Truncate(chat, num));
    InBoth(Step(sys, Truncate(chat, num)), chat);
  }

  /** A deletion: that chat is gone, from memory and from the listing. */
  lemma DeleteHides(sys: System, chat: nat)
    requires Sound(sys)
    ensures var t := Step(sys, Delete(chat));
            chat !in t.cache.byId && !Live(t.store, chat) && OthersStay(sys, t, {chat})
  {
    StepKeeps(sys, Delete(chat));
    assert ChatAgrees(Step(sys, Delete(chat)).store, Step(sys, Delete(chat)).cache, chat);
  }

  /** The deletion of a project: its chats are gone, and no others. */
  lemma DeleteProjectHides(sys: System, project: Text)
    requires Sound(sys)
    ensures var t := Step(sys, DeleteProject(project));
            && OthersStay(sys, t, ChatsOf(sys.cache, project))
            && forall id: nat | id in ChatsOf(sys.cache, project) :: id !in t.cache.byId && !Live(t.store, id)
  {
    var t := Step(sys, DeleteProject(project));
    StepKeeps(sys, DeleteProject(project));
    forall id: nat | id in ChatsOf(sys.cache, project) ensures id !in t.cache.byId && !Live(t.store, id) {
      assert ChatAgrees(t.store, t.cache, id);
    }
  }

  /** A request for a chat that is not there changes no chat. */
  lemma UnknownChat(sys: System, op: Op)
    requires Sound(sys)
    requires match op
             case Send(chat, _) => chat !in sys.cache.byId
             case FinishTurn(chat, _, _) => chat !in sys.cache.byId
             case Retry(chat) => chat !in sys.cache.byId
             case Update(chat, _, _, _, _) => chat !in sys.cache.byId
             case Truncate(chat, _) => chat !in sys.cache.byId
             case Delete(chat) => chat !in sys.cache.byId
             case _ => false
    ensures OthersStay(sys, Step(sys, op), {})
  {
  }

  // ----- where contents come from -----------------------------------------------------------

  /** Chats that ever existed. */
  function Created(ops: seq<Op>): nat {
    if ops == [] then 0
    else
      var last := ops[|ops| - 1];
      Created(ops[..|ops| - 1]) + if last.Create? && last.meta.title != [] then 1 else 0
  }

  /** The contents sent to chats that exist, in the order of their prompt ids. */
  function Contents(ops: seq<Op>): seq<Text> {
    if ops == [] then []
    else
      var init, last := ops[..|ops| - 1], ops[|ops| - 1];
      Contents(init) + if last.Send? && last.chat < Created(init) then [last.content] else []
  }

  predicate FromSends(table: seq<PromptRow>, sent: seq<Text>) {
    forall k | 0 <= k < |table| :: table[k].rec.id < |sent| && table[k].rec.content == sent[table[k].rec.id]
  }

  lemma FromMore(table: seq<PromptRow>, sent: seq<Text>, content: Text)
    requires FromSends(table, sent)
    ensures FromSends(table, sent + [content])
  {
  }

  /** Rows of `after` have id and content of rows of `before`. */
  predicate SameContents(before: seq<PromptRow>, after: seq<PromptRow>) {
    forall k | 0 <= k < |after| :: Held(before, after[k].rec.id, after[k].rec.content)
  }

  predicate Held(table: seq<PromptRow>, id: nat, content: Text) {
    exists j | 0 <= j < |table| :: table[j].rec.id == id && table[j].rec.content == content
  }

  lemma SameFrom(before: seq<PromptRow>, after: seq<PromptRow>, sent: seq<Text>)
    requires FromSends(before, sent) && SameContents(before, after)
    ensures FromSends(after, sent)
  {
    forall k | 0 <= k < |after| ensures after[k].rec.id < |sent| && after[k].rec.content == sent[after[k].rec.id] {
      assert Held(before, after[k].rec.id, after[k].rec.content);
    }
  }

  lemma EditSame(table: seq<PromptRow>, id: nat, edit: Edit)
    ensures SameContents(table, EditRows(table, id, edit))
  {
    EditRowsAt(table, id, edit);
    var after := EditRows(table, id, edit);
    forall k | 0 <= k < |table| ensures Held(table, after[k].rec.id, after[k].rec.content) {
      assert table[k].rec.id == after[k].rec.id && table[k].rec.content == after[k].rec.content;
    }
  }

  lemma {:induction false} DeleteFrom(table: seq<PromptRow>, ids: seq<nat>, sent: seq<Text>)
    requires FromSends(table, sent)
    ensures FromSends(DeleteRows(table, ids), sent)
  {
    if ids != [] {
      var n := |ids| - 1;
      var rest := DeleteRows(table, ids[..n]);
      DeleteFrom(table, ids[..n], sent);
      var kept := DeleteRowSelects(rest, ids[n]);
      forall k | 0 <= k < |kept|
        ensures DeleteRow(rest, ids[n])[k].rec.id < |sent|
        ensures DeleteRow(rest, ids[n])[k].rec.content == sent[DeleteRow(rest, ids[n])[k].rec.id] {
        assert rest[kept[k]] == DeleteRow(rest, ids[n])[k];
      }
    }
  }

  lemma EditsFrom(table: seq<PromptRow>, id: nat, a: Edit, sent: seq<Text>)
    requires FromSends(table, sent)
    ensures FromSends(EditRows(table, id, a), sent)
  {
    EditSame(table, id, a);
    SameFrom(table, EditRows(table, id, a), sent);
  }

  lemma {:induction false} DeletedChatsStay(s: Store, ids: seq<nat>)
    ensures DeleteChats(s, ids).prompts == s.prompts && DeleteChats(s, ids).issued == s.issued
    ensures |DeleteChats(s, ids).chats| == |s.chats|
  {
    if ids != [] { DeletedChatsStay(s, ids[..|ids| - 1]); }
  }

  lemma ContentStep(sys: System, op: Op, sent: seq<Text>)
    requires FromSends(sys.store.prompts, sent) && sys.store.issued == |sent|
    ensures var t := Step(sys, op);
            var more := if op.Send? && op.chat < |sys.store.chats| then sent + [op.content] else sent;
            && FromSends(t.store.prompts, more) && t.store.issued == |more|
            && |t.store.chats| == |sys.store.chats| + if op.Create? && op.meta.title != [] then 1 else 0
  {
    match op
    case Send(chat, content) => FromMore(sys.store.prompts, sent, content);
    case FinishTurn(chat, prompt, evs) => FinishFrom(sys, chat, prompt, evs, sent);
    case Retry(chat) => RetryFrom(sys, chat, sent);
    case Truncate(chat, num) =>
      if chat in sys.cache.byId { DeleteFrom(sys.store.prompts, RemovedIds(sys.cache.byId[chat].prompts, num), sent); }
    case DeleteProject(project) => DeletedChatsStay(sys.store, LiveIds(sys.store.chats, project));
    case _ =>
  }

  lemma FinishFrom(sys: System, chat: nat, prompt: nat, evs: seq<AgentEvent>, sent: seq<Text>)
    requires FromSends(sys.store.prompts, sent)
    ensures var t := Step(sys, FinishTurn(chat, prompt, evs));
            FromSends(t.store.prompts, sent) && t.store.issued == sys.store.issued && t.store.chats == sys.store.chats
  {
    if chat in sys.cache.byId {
      var recs := sys.cache.byId[chat].prompts;
      match ChatRegistry.FindPrompt(recs, prompt)
      case None =>
      case Some(k) => EditsFrom(sys.store.prompts, prompt, SetEvents(AppendAll(recs[k].events, evs)), sent);
    }
  }

  lemma RetryFrom(sys: System, chat: nat, sent: seq<Text>)
    requires FromSends(sys.store.prompts, sent)
    ensures var t := Step(sys, Retry(chat));
            FromSends(t.store.prompts, sent) && t.store.issued == sys.store.issued && t.store.chats == sys.store.chats
  {
    if chat in sys.cache.byId && sys.cache.byId[chat].prompts != [] {
      var recs := sys.cache.byId[chat].prompts;
      var id := recs[|recs| - 1].id;
      EditsFrom(sys.store.prompts, id, SetEvents([]), sent);
      EditsFrom(EditRows(sys.store.prompts, id, SetEvents([])), id, SetTouched([]), sent);
    }
  }

  lemma {:induction false} TableFromSends(ops: seq<Op>)
    ensures FromSends(Runs(ops).store.prompts, Contents(ops)) && Runs(ops).store.issued == |Contents(ops)|
    ensures |Runs(ops).store.chats| == Created(ops)
  {
    if ops != [] {
      var n := |ops| - 1;
      TableFromSends(ops[..n]);
      ContentStep(Runs(ops[..n]), ops[n], Contents(ops[..n]));
      assert Contents(ops[..n]) + [] == Contents(ops[..n]);
    }
  }

  /** After any completed requests every stored prompt, and every cached one, has the content of the
      send that issued its id. */
  lemma ContentsAreAsSent(ops: seq<Op>)
    ensures FromSends(Runs(ops).store.prompts, Contents(ops))
    ensures forall chat: nat, k | chat in Runs(ops).cache.byId && 0 <= k < |Runs(ops).cache.byId[chat].prompts| ::
              var rec := Runs(ops).cache.byId[chat].prompts[k];
              rec.id < |Contents(ops)| && rec.content == Contents(ops)[rec.id]
  {
    TableFromSends(ops);
    RunsSound(ops);
    forall chat: nat, k | chat in Runs(ops).cache.byId && 0 <= k < |Runs(ops).cache.byId[chat].prompts|
      ensures var rec := Runs(ops).cache.byId[chat].prompts[k];
              rec.id < |Contents(ops)| && rec.content == Contents(ops)[rec.id] {
      assert ChatAgrees(Runs(ops).store, Runs(ops).cache, chat);
      RowInTable(Runs(ops).store.prompts, chat, k);
    }
  }

  lemma {:induction false} RowInTable(table: seq<PromptRow>, chat: nat, k: nat)
    requires k < |RowsOf(table, chat)|
    ensures exists j | 0 <= j < |table| :: table[j].rec == RowsOf(table, chat)[k]
  {
    var n := |table| - 1;
    if k < |RowsOf(table[..n], chat)| {
      RowInTable(table[..n], chat, k);
      var j :| 0 <= j < n && table[..n][j].rec == RowsOf(table[..n], chat)[k];
      assert table[j].rec == RowsOf(table, chat)[k];
    } else {
      assert table[n].rec == RowsOf(table, chat)[k];
    }
  }
}
