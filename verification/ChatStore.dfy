/**
 The durable chat and prompt tables.

 Chat rows are never removed, only marked deleted, and are listed in creation order; a chat's id
 is its place in that order, standing for the time-ordered UUID the store issues. Prompt ids are
 issued in increasing order and never reused.
 */
module ChatStore {
  import opened Util
  import opened Events

  datatype Meta = Meta(project: Text, worktree: Option<Text>, title: Text, provider: Text, model: Text,
                       effort: Option<Text>, session: Option<Text>, created: int)

  datatype ChatRow = ChatRow(meta: Meta, deleted: bool)

  datatype PromptRecord = PromptRecord(id: nat, num: nat, content: Text, events: seq<AgentEvent>, touched: seq<Text>)

  datatype PromptRow = PromptRow(chat: nat, rec: PromptRecord)

  datatype Store = Store(chats: seq<ChatRow>, prompts: seq<PromptRow>, issued: nat)

  /** A write to one column of a prompt. */
  datatype Edit = SetEvents(events: seq<AgentEvent>) | SetTouched(touched: seq<Text>)

  function Edited(rec: PromptRecord, edit: Edit): PromptRecord {
    match edit
    case SetEvents(events) => rec.(events := events)
    case SetTouched(touched) => rec.(touched := touched)
  }

  predicate Live(s: Store, id: nat) {
    id < |s.chats| && !s.chats[id].deleted
  }

  /** Live chats of a project, oldest first. */
  function LiveIds(chats: seq<ChatRow>, project: Text): seq<nat> {
    if chats == [] then []
    else
      var n := |chats| - 1;
      LiveIds(chats[..n], project)
      + if !chats[n].deleted && chats[n].meta.project == project then [n] else []
  }

  /** The rows of one chat, in table order. */
  function RowsOf(table: seq<PromptRow>, chat: nat): seq<PromptRecord> {
    if table == [] then []
    else
      var last := table[|table| - 1];
      RowsOf(table[..|table| - 1], chat) + if last.chat == chat then [last.rec] else []
  }

  function InsertByNum(recs: seq<PromptRecord>, rec: PromptRecord): seq<PromptRecord> {
    if recs == [] || recs[|recs| - 1].num <= rec.num then recs + [rec]
    else InsertByNum(recs[..|recs| - 1], rec) + [recs[|recs| - 1]]
  }

  function SortByNum(recs: seq<PromptRecord>): seq<PromptRecord> {
    if recs == [] then [] else InsertByNum(SortByNum(recs[..|recs| - 1]), recs[|recs| - 1])
  }

  /** SELECT ... WHERE chat_id ORDER BY seq. */
  function ListPrompts(table: seq<PromptRow>, chat: nat): seq<PromptRecord> {
    SortByNum(RowsOf(table, chat))
  }

  /** COALESCE(MAX(seq), 0). */
  function MaxNum(recs: seq<PromptRecord>): nat {
    if recs == [] then 0
    else
      var m := MaxNum(recs[..|recs| - 1]);
      if m < recs[|recs| - 1].num then recs[|recs| - 1].num else m
  }

  /** UPDATE prompts WHERE id. */
  function EditRows(table: seq<PromptRow>, id: nat, edit: Edit): seq<PromptRow> {
    if table == [] then []
    else
      var last := table[|table| - 1];
      EditRows(table[..|table| - 1], id, edit)
      + [if last.rec.id == id then last.(rec := Edited(last.rec, edit)) else last]
  }

  /** DELETE FROM prompts WHERE id. */
  function DeleteRow(table: seq<PromptRow>, id: nat): seq<PromptRow> {
    if table == [] then []
    else
      var last := table[|table| - 1];
      DeleteRow(table[..|table| - 1], id) + if last.rec.id == id then [] else [last]
  }

  function DeleteRows(table: seq<PromptRow>, ids: seq<nat>): seq<PromptRow> {
    if ids == [] then table else DeleteRow(DeleteRows(table, ids[..|ids| - 1]), ids[|ids| - 1])
  }

  /** Each `Some` field is written, `None` leaves the column alone. */
  function Patched(m: Meta, title: Option<Text>, model: Option<Text>,
      effort: Option<Option<Text>>, session: Option<Option<Text>>): Meta {
    m.(title := if title.Some? then title.value else m.title,
       model := if model.Some? then model.value else m.model,
       effort := if effort.Some? then effort.value else m.effort,
       session := if session.Some? then session.value else m.session)
  }

  function CreateChat(s: Store, meta: Meta): Store {
    s.(chats := s.chats + [ChatRow(meta.(session := None), false)])
  }

  function UpdateChat(s: Store, id: nat, title: Option<Text>, model: Option<Text>,
      effort: Option<Option<Text>>, session: Option<Option<Text>>): Store {
    if id < |s.chats|
    then s.(chats := s.chats[id := s.chats[id].(meta := Patched(s.chats[id].meta, title, model, effort, session))])
    else s
  }

  function DeleteChat(s: Store, id: nat): Store {
    if Live(s, id) then s.(chats := s.chats[id := s.chats[id].(deleted := true)]) else s
  }

  function NextPrompt(s: Store, chat: nat, content: Text): PromptRecord {
    PromptRecord(s.issued, MaxNum(RowsOf(s.prompts, chat)) + 1, content, [], [])
  }

  function AddPrompt(s: Store, chat: nat, content: Text): Store {
    if chat < |s.chats|
    then s.(prompts := s.prompts + [PromptRow(chat, NextPrompt(s, chat, content))], issued := s.issued + 1)
    else s
  }

  function EditPrompt(s: Store, id: nat, edit: Edit): Store {
    s.(prompts := EditRows(s.prompts, id, edit))
  }

  function DeletePrompts(s: Store, ids: seq<nat>): Store {
    s.(prompts := DeleteRows(s.prompts, ids))
  }

  // ----- facts about the statements -----------------------------------------------------

  predicate Numbered(recs: seq<PromptRecord>) {
    forall k | 0 <= k < |recs| :: recs[k].num == k + 1
  }

  lemma {:induction false} NumberedMax(recs: seq<PromptRecord>)
    requires Numbered(recs)
    ensures MaxNum(recs) == |recs|
  {
    if recs != [] { NumberedMax(recs[..|recs| - 1]); }
  }

  lemma InsertLargest(recs: seq<PromptRecord>, rec: PromptRecord)
    requires recs == [] || recs[|recs| - 1].num <= rec.num
    ensures InsertByNum(recs, rec) == recs + [rec]
  {
  }

  lemma {:induction false} NumberedIsSorted(recs: seq<PromptRecord>)
    requires Numbered(recs)
    ensures SortByNum(recs) == recs
  {
    if recs != [] {
      var n := |recs| - 1;
      NumberedIsSorted(recs[..n]);
      InsertLargest(recs[..n], recs[n]);
      assert recs == recs[..n] + [recs[n]];
    }
  }

  function EditRecs(recs: seq<PromptRecord>, id: nat, edit: Edit): seq<PromptRecord> {
    seq(|recs|, k requires 0 <= k < |recs| => if recs[k].id == id then Edited(recs[k], edit) else recs[k])
  }

  lemma {:induction false} EditRowsOf(table: seq<PromptRow>, id: nat, edit: Edit, chat: nat)
    ensures RowsOf(EditRows(table, id, edit), chat) == EditRecs(RowsOf(table, chat), id, edit)
  {
    if table != [] {
      var n := |table| - 1;
      EditRowsOf(table[..n], id, edit, chat);
      assert EditRows(table, id, edit)[..|EditRows(table[..n], id, edit)|] == EditRows(table[..n], id, edit);
    }
  }

  function DropRec(recs: seq<PromptRecord>, id: nat): seq<PromptRecord> {
    if recs == [] then []
    else
      var last := recs[|recs| - 1];
      DropRec(recs[..|recs| - 1], id) + if last.id == id then [] else [last]
  }

  function DropRecs(recs: seq<PromptRecord>, ids: seq<nat>): seq<PromptRecord> {
    if ids == [] then recs else DropRec(DropRecs(recs, ids[..|ids| - 1]), ids[|ids| - 1])
  }

  lemma {:induction false} DeleteRowOf(table: seq<PromptRow>, id: nat, chat: nat)
    ensures RowsOf(DeleteRow(table, id), chat) == DropRec(RowsOf(table, chat), id)
  {
    if table != [] {
      var n := |table| - 1;
      var rest, last := DeleteRow(table[..n], id), table[n];
      DeleteRowOf(table[..n], id, chat);
      if last.chat == chat {
        DropSnoc(RowsOf(table[..n], chat), last.rec, id);
      } else {
        assert RowsOf(table, chat) == RowsOf(table[..n], chat);
      }
      if last.rec.id == id {
        assert DeleteRow(table, id) == rest;
      } else {
        AddRowOf(rest, last, chat);
      }
    }
  }

  lemma DropSnoc(recs: seq<PromptRecord>, rec: PromptRecord, id: nat)
    ensures DropRec(recs + [rec], id) == DropRec(recs, id) + if rec.id == id then [] else [rec]
  {
    assert (recs + [rec])[..|recs|] == recs;
  }

  lemma {:induction false} DeleteRowsOf(table: seq<PromptRow>, ids: seq<nat>, chat: nat)
    ensures RowsOf(DeleteRows(table, ids), chat) == DropRecs(RowsOf(table, chat), ids)
  {
    if ids != [] {
      DeleteRowsOf(table, ids[..|ids| - 1], chat);
      DeleteRowOf(DeleteRows(table, ids[..|ids| - 1]), ids[|ids| - 1], chat);
    }
  }

  lemma AddRowOf(table: seq<PromptRow>, row: PromptRow, chat: nat)
    ensures RowsOf(table + [row], chat) == RowsOf(table, chat) + if row.chat == chat then [row.rec] else []
  {
    assert (table + [row])[..|table|] == table;
  }

  lemma {:induction false} DropFirst(recs: seq<PromptRecord>, id: nat)
    requires forall k | 0 <= k < |recs| :: recs[k].id != id
    ensures DropRec(recs, id) == recs
  {
    if recs != [] {
      DropFirst(recs[..|recs| - 1], id);
      assert recs == recs[..|recs| - 1] + [recs[|recs| - 1]];
    }
  }

  lemma {:induction false} DropAbsent(recs: seq<PromptRecord>, ids: seq<nat>)
    requires forall k | 0 <= k < |recs| :: recs[k].id !in ids
    ensures DropRecs(recs, ids) == recs
  {
    if ids != [] {
      DropAbsent(recs, ids[..|ids| - 1]);
      DropFirst(recs, ids[|ids| - 1]);
    }
  }

  /** One above the highest number, or 1. */
  predicate OneAbove(recs: seq<PromptRecord>, num: nat) {
    && (forall k | 0 <= k < |recs| :: recs[k].num < num)
    && (num == 1 || exists k | 0 <= k < |recs| :: recs[k].num + 1 == num)
  }

  lemma {:induction false} MaxIsOneBelow(recs: seq<PromptRecord>)
    ensures OneAbove(recs, MaxNum(recs) + 1)
  {
    if recs != [] {
      var n := |recs| - 1;
      MaxIsOneBelow(recs[..n]);
      if MaxNum(recs) == recs[n].num {
        assert recs[n].num + 1 == MaxNum(recs) + 1;
      } else if MaxNum(recs[..n]) + 1 != 1 {
        var k :| 0 <= k < n && recs[..n][k].num + 1 == MaxNum(recs[..n]) + 1;
        assert recs[k].num + 1 == MaxNum(recs) + 1;
      }
    }
  }

  lemma {:induction false} EditRowsAt(table: seq<PromptRow>, id: nat, edit: Edit)
    ensures |EditRows(table, id, edit)| == |table|
    ensures forall k | 0 <= k < |table| ::
      EditRows(table, id, edit)[k]
        == var row := table[k]; if row.rec.id == id then row.(rec := Edited(row.rec, edit)) else row
  {
    if table != [] { EditRowsAt(table[..|table| - 1], id, edit); }
  }

  /** `rest` is `table` at the places `kept`, which rise. */
  predicate Selects(kept: seq<nat>, table: seq<PromptRow>, rest: seq<PromptRow>) {
    && |kept| == |rest|
    && (forall i, j | 0 <= i < j < |kept| :: kept[i] < kept[j])
    && forall i | 0 <= i < |kept| :: kept[i] < |table| && table[kept[i]] == rest[i]
  }

  /** `kept` are all the places of the rows with another id. */
  predicate AllOthers(kept: seq<nat>, table: seq<PromptRow>, id: nat) {
    forall k: nat | k < |table| :: k in kept <==> table[k].rec.id != id
  }

  /** The rows with another id stay, in their old order. */
  lemma {:induction false} DeleteRowSelects(table: seq<PromptRow>, id: nat) returns (kept: seq<nat>)
    ensures Selects(kept, table, DeleteRow(table, id)) && AllOthers(kept, table, id)
  {
    kept := [];
    if table != [] {
      var n := |table| - 1;
      var few := DeleteRowSelects(table[..n], id);
      kept := few + if table[n].rec.id != id then [n] else [];
      AllOthersSnoc(few, table, id);
    }
  }

  lemma AllOthersSnoc(kept: seq<nat>, table: seq<PromptRow>, id: nat)
    requires table != [] && AllOthers(kept, table[..|table| - 1], id)
    requires forall i | 0 <= i < |kept| :: kept[i] < |table| - 1
    ensures AllOthers(kept + if table[|table| - 1].rec.id != id then [|table| - 1] else [], table, id)
  {
    var n := |table| - 1;
    forall k: nat | k < n ensures k in kept <==> table[k].rec.id != id { assert table[..n][k] == table[k]; }
  }

  class ChatRepo {
    var chats: seq<ChatRow>
    var prompts: seq<PromptRow>
    var issued: nat

    constructor ()
      ensures View() == Store([], [], 0)
    {
      chats, prompts, issued := [], [], 0;
    }

    function View(): Store
      reads this
    {
      Store(chats, prompts, issued)
    }

    method Create(meta: Meta) returns (id: Option<nat>)
      modifies this
      ensures meta.title == [] ==> id.None? && View() == old(View())
      ensures meta.title != [] ==> id == Some(|old(chats)|) && View() == CreateChat(old(View()), meta)
    {
      if |meta.title| == 0 { return None; }
      id := Some(|chats|);
      chats := chats + [ChatRow(meta.(session := None), false)];
    }

    method Update(id: nat, title: Option<Text>, model: Option<Text>,
        effort: Option<Option<Text>>, session: Option<Option<Text>>) returns (found: bool)
      modifies this
      ensures found == (id < |old(chats)|)
      ensures View() == UpdateChat(old(View()), id, title, model, effort, session)
    {
      found := id < |chats|;
      if !found { return; }
      var m := chats[id].meta;
      if title.Some? { m := m.(title := title.value); }
      if model.Some? { m := m.(model := model.value); }
      if effort.Some? { m := m.(effort := effort.value); }
      if session.Some? { m := m.(session := session.value); }
      chats := chats[id := chats[id].(meta := m)];
    }

    method Delete(id: nat) returns (removed: bool)
      modifies this
      ensures removed == Live(old(View()), id) && View() == DeleteChat(old(View()), id)
    {
      removed := id < |chats| && !chats[id].deleted;
      if removed { chats := chats[id := chats[id].(deleted := true)]; }
    }

    /** Reads the highest number, then inserts: two statements. */
    method Add(chat: nat, content: Text) returns (rec: Option<PromptRecord>)
      modifies this
      ensures rec == if chat < |old(chats)| then Some(NextPrompt(old(View()), chat, content)) else None
      ensures View() == AddPrompt(old(View()), chat, content)
      ensures rec.None? ==> View() == old(View())
      ensures rec.Some? ==>
        && rec.value.content == content && rec.value.events == [] && rec.value.touched == []
        && rec.value.id == old(issued) && issued == old(issued) + 1 && chats == old(chats)
        && prompts == old(prompts) + [PromptRow(chat, rec.value)]
        && OneAbove(RowsOf(old(prompts), chat), rec.value.num)
    {
      MaxIsOneBelow(RowsOf(prompts, chat));
      if chat >= |chats| { return None; }
      var next := MaxNum(RowsOf(prompts, chat)) + 1;
      var added := PromptRecord(issued, next, content, [], []);
      prompts, issued := prompts + [PromptRow(chat, added)], issued + 1;
      return Some(added);
    }

    method Write(id: nat, edit: Edit)
      modifies this
      ensures View() == EditPrompt(old(View()), id, edit)
      ensures |prompts| == |old(prompts)|
      ensures forall k | 0 <= k < |prompts| ::
        prompts[k] == var row := old(prompts)[k]; if row.rec.id == id then row.(rec := Edited(row.rec, edit)) else row
    {
      EditRowsAt(prompts, id, edit);
      prompts := EditRows(prompts, id, edit);
    }

    method DeletePrompt(id: nat)
      modifies this
      ensures View() == old(View()).(prompts := DeleteRow(old(prompts), id))
      ensures exists kept :: Selects(kept, old(prompts), prompts) && AllOthers(kept, old(prompts), id)
    {
      ghost var kept := DeleteRowSelects(prompts, id);
      prompts := DeleteRow(prompts, id);
    }
  }
}
