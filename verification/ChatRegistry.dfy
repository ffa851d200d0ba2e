/** The in-memory chats: records by id, and for each project the ids in order of arrival. */
module ChatRegistry {
  import opened Util
  import opened Events
  import opened EventLog
  import opened ChatStore

  datatype Chat = Chat(id: nat, meta: Meta, prompts: seq<PromptRecord>)

  datatype Cache = Cache(byId: map<nat, Chat>, byProject: map<Text, seq<nat>>)

  const EMPTY := Cache(map[], map[])

  function Lookup(c: Cache, project: Text): seq<nat> {
    if project in c.byProject then c.byProject[project] else []
  }

  function Ingest(c: Cache, chat: Chat): Cache {
    Cache(c.byId[chat.id := chat],
          c.byProject[chat.meta.project := Lookup(c, chat.meta.project) + [chat.id]])
  }

  function Evict(c: Cache, id: nat): Cache {
    if id !in c.byId then c
    else
      var project := c.byId[id].meta.project;
      Cache(c.byId - {id},
            if project in c.byProject then c.byProject[project := Without(c.byProject[project], {id})] else c.byProject)
  }

  /** Replaces a record that stays in its project. */
  function Put(c: Cache, chat: Chat): Cache {
    c.(byId := c.byId[chat.id := chat])
  }

  function ForkOf(source: Chat, upTo: nat, id: nat, title: Text, created: int): Chat {
    Chat(id, source.meta.(title := title, session := None, created := created), UpTo(source.prompts, upTo))
  }

  function UpTo(recs: seq<PromptRecord>, upTo: nat): seq<PromptRecord> {
    if recs == [] then []
    else
      var last := recs[|recs| - 1];
      UpTo(recs[..|recs| - 1], upTo) + if last.num <= upTo then [last] else []
  }

  /** A forked chat gets the id the store issued for it. */
  function Rekey(c: Cache, old_: nat, new_: nat): Cache {
    if old_ !in c.byId then c
    else
      var chat := c.byId[old_].(id := new_);
      var project := chat.meta.project;
      Cache((c.byId - {old_})[new_ := chat],
            if project in c.byProject
            then c.byProject[project := Without(c.byProject[project], {old_}) + [new_]]
            else c.byProject)
  }

  predicate Has(c: Cache, project: Text, id: nat) {
    id in c.byId && c.byId[id].meta.project == project
  }

  /** The index lists, for every project and without repeats, exactly its chats. */
  ghost predicate Indexed(c: Cache) {
    && (forall id | id in c.byId :: c.byId[id].id == id)
    && (forall project :: NoDup(Lookup(c, project)))
    && (forall project, id: nat :: id in Lookup(c, project) <==> Has(c, project, id))
  }

  /** Taking in a chat keeps the index right exactly when its id is new. */
  lemma IngestKeepsIndexIff(c: Cache, chat: Chat)
    requires Indexed(c)
    ensures Indexed(Ingest(c, chat)) <==> chat.id !in c.byId
  {
    var d, home := Ingest(c, chat), chat.meta.project;
    assert forall project | project != home :: Lookup(d, project) == Lookup(c, project);
    NoDupSnoc(Lookup(c, home), chat.id);
    if chat.id !in c.byId {
      assert !Has(c, home, chat.id);
      assert chat.id !in Lookup(c, home);
      forall project, id: nat ensures id in Lookup(d, project) <==> Has(d, project, id) {
        assert id in Lookup(c, project) <==> Has(c, project, id);
      }
    } else {
      var was := c.byId[chat.id].meta.project;
      assert Has(c, was, chat.id);
      if was == home {
        assert !NoDup(Lookup(d, home));
      } else {
        assert chat.id in Lookup(d, was) && !Has(d, was, chat.id);
      }
    }
  }

  lemma EvictKeepsIndex(c: Cache, id: nat)
    requires Indexed(c)
    ensures Indexed(Evict(c, id))
    ensures id !in Evict(c, id).byId
    ensures forall project :: Lookup(Evict(c, id), project) == Without(Lookup(c, project), {id})
  {
    var d := Evict(c, id);
    forall project ensures Lookup(d, project) == Without(Lookup(c, project), {id}) && NoDup(Lookup(d, project)) {
      WithoutNoDup(Lookup(c, project), {id});
      if id !in Lookup(c, project) { WithoutNone(Lookup(c, project), {id}); }
      assert id in Lookup(c, project) <==> Has(c, project, id);
    }
    forall project, other: nat ensures other in Lookup(d, project) <==> Has(d, project, other) {
      WithoutIn(Lookup(c, project), {id}, other);
      assert other in Lookup(c, project) <==> Has(c, project, other);
    }
  }

  /** The cache without the chats in `gone`. */
  function Retained(c: Cache, gone: set<nat>): Cache {
    Cache(c.byId - gone, map project | project in c.byProject :: Without(c.byProject[project], gone))
  }

  function Rejected(byId: map<nat, Chat>, keep: Chat -> bool): set<nat> {
    set id | id in byId && !keep(byId[id])
  }

  lemma RetainedNone(c: Cache)
    ensures Retained(c, {}) == c
  {
    forall project | project in c.byProject ensures Without(c.byProject[project], {}) == c.byProject[project] {
      WithoutNone(c.byProject[project], {});
    }
  }

  lemma EvictLists(c: Cache, id: nat)
    requires Indexed(c)
    ensures Evict(c, id).byProject == map project | project in c.byProject :: Without(c.byProject[project], {id})
  {
    EvictKeepsIndex(c, id);
    forall project | project in c.byProject
      ensures project in Evict(c, id).byProject
      ensures Evict(c, id).byProject[project] == Without(c.byProject[project], {id}) {
      assert Lookup(Evict(c, id), project) == Without(Lookup(c, project), {id});
    }
  }

  lemma EvictFromRetained(c: Cache, gone: set<nat>, id: nat)
    requires Indexed(Retained(c, gone)) && id in c.byId && id !in gone
    ensures Evict(Retained(c, gone), id) == Retained(c, gone + {id})
  {
    EvictLists(Retained(c, gone), id);
    forall project | project in c.byProject
      ensures Without(Without(c.byProject[project], gone), {id}) == Without(c.byProject[project], gone + {id}) {
      WithoutTwice(c.byProject[project], gone, id);
    }
    assert c.byId - gone - {id} == c.byId - (gone + {id});
  }

  lemma MoveOne(left: set<nat>, done: set<nat>, id: nat)
    requires id in left && left !! done
    ensures (left - {id}) + (done + {id}) == left + done && (left - {id}) !! (done + {id}) && |left - {id}| < |left|
  {
  }

  /** Giving a fork its final id keeps the index, provided the final id is new. */
  lemma RekeyKeepsIndex(c: Cache, was: nat, id: nat)
    requires Indexed(c) && was in c.byId && id !in c.byId
    ensures Indexed(Rekey(c, was, id))
    ensures Rekey(c, was, id).byId == (c.byId - {was})[id := c.byId[was].(id := id)]
  {
    var home := c.byId[was].meta.project;
    assert Has(c, home, was);
    assert was in Lookup(c, home);
    assert Rekey(c, was, id) == Ingest(Evict(c, was), c.byId[was].(id := id)) by {
      EvictKeepsIndex(c, was);
      var e := Evict(c, was);
      assert Ingest(e, c.byId[was].(id := id)).byProject == Rekey(c, was, id).byProject;
    }
    EvictKeepsIndex(c, was);
    IngestKeepsIndexIff(Evict(c, was), c.byId[was].(id := id));
  }

  lemma PutKeepsIndex(c: Cache, chat: Chat)
    requires Indexed(c) && chat.id in c.byId && c.byId[chat.id].meta.project == chat.meta.project
    ensures Indexed(Put(c, chat))
  {
    var d := Put(c, chat);
    forall project, id: nat ensures id in Lookup(d, project) <==> Has(d, project, id) {
      assert id in Lookup(c, project) <==> Has(c, project, id);
    }
    assert forall project :: Lookup(d, project) == Lookup(c, project);
  }

  predicate InScope(chat: Chat, project: Text, worktree: Option<Text>) {
    chat.meta.project == project && (worktree.None? || chat.meta.worktree == worktree)
  }

  /** Index of the first prompt with this id. */
  function FindPrompt(recs: seq<PromptRecord>, id: nat): (k: Option<nat>)
    ensures k.Some? ==> k.value < |recs| && recs[k.value].id == id
                        && forall j | 0 <= j < k.value :: recs[j].id != id
    ensures k.None? ==> forall j | 0 <= j < |recs| :: recs[j].id != id
  {
    if recs == [] then None
    else
      var k := FindPrompt(recs[..|recs| - 1], id);
      assert forall j | 0 <= j < |recs| - 1 :: recs[..|recs| - 1][j] == recs[j];
      if k.Some? then k else if recs[|recs| - 1].id == id then Some(|recs| - 1) else None
  }

  function AppendTo(recs: seq<PromptRecord>, id: nat, ev: AgentEvent): seq<PromptRecord> {
    match FindPrompt(recs, id)
    case None => recs
    case Some(k) => recs[k := recs[k].(events := Append(recs[k].events, ev))]
  }

  function AppendIn(c: Cache, chat: nat, prompt: nat, ev: AgentEvent): Cache {
    if chat in c.byId
    then c.(byId := c.byId[chat := c.byId[chat].(prompts := AppendTo(c.byId[chat].prompts, prompt, ev))])
    else c
  }

  function Reset(rec: PromptRecord): PromptRecord {
    rec.(events := [], touched := [])
  }

  function Retried(recs: seq<PromptRecord>): seq<PromptRecord> {
    if recs == [] then recs else recs[..|recs| - 1] + [Reset(recs[|recs| - 1])]
  }

  function Before(recs: seq<PromptRecord>, num: nat): seq<PromptRecord> {
    if recs == [] then []
    else
      var last := recs[|recs| - 1];
      Before(recs[..|recs| - 1], num) + if last.num < num then [last] else []
  }

  function RemovedIds(recs: seq<PromptRecord>, num: nat): seq<nat> {
    if recs == [] then []
    else
      var last := recs[|recs| - 1];
      RemovedIds(recs[..|recs| - 1], num) + if last.num >= num then [last.id] else []
  }

  lemma {:induction false} BeforeIsTake(recs: seq<PromptRecord>, k: nat, num: nat)
    requires k <= |recs|
    requires forall i | 0 <= i < |recs| :: recs[i].num < num <==> i < k
    ensures Before(recs, num) == recs[..k]
  {
    if recs != [] {
      var n := |recs| - 1;
      assert recs[n].num < num <==> n < k;
      BeforeIsTake(recs[..n], if k <= n then k else n, num);
      if k <= n { assert recs[..n][..k] == recs[..k]; } else { assert recs == recs[..n] + [recs[n]]; }
    }
  }

  lemma {:induction false} UpToIsBefore(recs: seq<PromptRecord>, upTo: nat)
    ensures UpTo(recs, upTo) == Before(recs, upTo + 1)
  {
    if recs != [] { UpToIsBefore(recs[..|recs| - 1], upTo); }
  }

  /** The copied prompts are those up to the number; of numbered prompts the first ones. */
  lemma UpToIsPrefix(recs: seq<PromptRecord>, upTo: nat)
    ensures forall rec :: rec in UpTo(recs, upTo) <==> rec in recs && rec.num <= upTo
    ensures Numbered(recs) ==> UpTo(recs, upTo) == recs[..if upTo <= |recs| then upTo else |recs|]
  {
    UpToIsBefore(recs, upTo);
    BeforeIsBelow(recs, upTo + 1);
    if Numbered(recs) { BeforeIsTake(recs, if upTo <= |recs| then upTo else |recs|, upTo + 1); }
  }

  function RecIds(recs: seq<PromptRecord>): (r: seq<nat>)
    ensures |r| == |recs| && forall k | 0 <= k < |r| :: r[k] == recs[k].id
  {
    seq(|recs|, k requires 0 <= k < |recs| => recs[k].id)
  }

  lemma {:induction false} RemovedIsRest(recs: seq<PromptRecord>, k: nat, num: nat)
    requires k <= |recs|
    requires forall i | 0 <= i < |recs| :: recs[i].num < num <==> i < k
    ensures RemovedIds(recs, num) == RecIds(recs[k..])
  {
    if recs != [] {
      var n := |recs| - 1;
      assert recs[n].num < num <==> n < k;
      RemovedIsRest(recs[..n], if k <= n then k else n, num);
      if k <= n { assert recs[k..] == recs[..n][k..] + [recs[n]]; }
    }
  }

  lemma {:induction false} BeforeIsBelow(recs: seq<PromptRecord>, num: nat)
    ensures forall rec :: rec in Before(recs, num) <==> rec in recs && rec.num < num
  {
    if recs != [] {
      var n := |recs| - 1;
      BeforeIsBelow(recs[..n], num);
      assert forall rec :: rec in recs <==> rec in recs[..n] || rec == recs[n];
    }
  }

  /** The place of the first prompt a truncation from `num` removes. */
  function FirstCut(recs: seq<PromptRecord>, num: nat): (k: nat)
    ensures k <= |recs|
  {
    if num == 0 then 0 else if num - 1 <= |recs| then num - 1 else |recs|
  }

  function SetPrompts(c: Cache, chat: nat, recs: seq<PromptRecord>): Cache {
    if chat in c.byId then c.(byId := c.byId[chat := c.byId[chat].(prompts := recs)]) else c
  }

  function SetMeta(c: Cache, chat: nat, meta: Meta): Cache {
    if chat in c.byId then c.(byId := c.byId[chat := c.byId[chat].(meta := meta)]) else c
  }

  function ChatsOf(c: Cache, project: Text): set<nat> {
    set id | id in c.byId && c.byId[id].meta.project == project
  }

  lemma {:induction false} NoDupCardinality(ids: seq<nat>)
    requires NoDup(ids)
    ensures |Elems(ids)| == |ids|
  {
    if ids != [] {
      var n := |ids| - 1;
      NoDupCardinality(ids[..n]);
      assert ids == ids[..n] + [ids[n]];
      assert Elems(ids) == Elems(ids[..n]) + {ids[n]};
    }
  }

  /** The chats of the list that are in scope, in the order of the list. */
  function Listed(byId: map<nat, Chat>, ids: seq<nat>, project: Text, worktree: Option<Text>): seq<Chat> {
    if ids == [] then []
    else
      var n := |ids| - 1;
      Listed(byId, ids[..n], project, worktree)
      + if ids[n] in byId && InScope(byId[ids[n]], project, worktree) then [byId[ids[n]]] else []
  }

  lemma {:induction false} ListedIsScan(byId: map<nat, Chat>, ids: seq<nat>, project: Text, worktree: Option<Text>)
    requires NoDup(ids) && forall id | id in byId :: byId[id].id == id
    ensures forall chat ::
      chat in Listed(byId, ids, project, worktree)
      <==> chat.id in ids && chat.id in byId && byId[chat.id] == chat && InScope(chat, project, worktree)
    ensures DistinctIds(Listed(byId, ids, project, worktree))
  {
    if ids != [] {
      var n := |ids| - 1;
      var before, all := Listed(byId, ids[..n], project, worktree), Listed(byId, ids, project, worktree);
      ListedIsScan(byId, ids[..n], project, worktree);
      assert forall id :: id in ids <==> id in ids[..n] || id == ids[n];
      assert ids[n] !in ids[..n];
      assert all == before || all == before + [byId[ids[n]]];
      if ids[n] in byId { OneMore(before, byId[ids[n]]); }
    }
  }

  predicate DistinctIds(chats: seq<Chat>) {
    forall i, j | 0 <= i < j < |chats| :: chats[i].id != chats[j].id
  }

  lemma OneMore(chats: seq<Chat>, chat: Chat)
    requires DistinctIds(chats) && forall other | other in chats :: other.id != chat.id
    ensures DistinctIds(chats + [chat])
  {
  }

  class Registry {
    var byId: map<nat, Chat>
    var byProject: map<Text, seq<nat>>

    constructor ()
      ensures View() == EMPTY && Valid()
    {
      byId, byProject := map[], map[];
    }

    function View(): Cache
      reads this
    {
      Cache(byId, byProject)
    }

    ghost predicate Valid()
      reads this
    {
      Indexed(View())
    }

    method IngestChat(chat: Chat)
      requires Valid() && chat.id !in byId
      modifies this
      ensures Valid() && View() == Ingest(old(View()), chat)
    {
      IngestKeepsIndexIff(View(), chat);
      var home := chat.meta.project;
      var ids := if home in byProject then byProject[home] else [];
      byProject := byProject[home := ids + [chat.id]];
      byId := byId[chat.id := chat];
    }

    method Remove(id: nat)
      requires Valid()
      modifies this
      ensures Valid() && View() == Evict(old(View()), id)
    {
      EvictKeepsIndex(View(), id);
      if id in byId {
        var home := byId[id].meta.project;
        byId := byId - {id};
        if home in byProject { byProject := byProject[home := Without(byProject[home], {id})]; }
      }
    }

    /** Drops every chat the test rejects, one after the other. */
    method RetainChats(keep: Chat -> bool)
      requires Valid()
      modifies this
      ensures Valid()
      ensures View() == Retained(old(View()), Rejected(old(byId), keep))
    {
      ghost var c := View();
      var rejected := Rejected(byId, keep);
      var left := rejected;
      ghost var done: set<nat> := {};
      RetainedNone(c);
      while left != {}
        invariant Valid() && left + done == rejected && left !! done
        invariant View() == Retained(c, done)
        decreases |left|
      {
        var id :| id in left;
        EvictFromRetained(c, done, id);
        MoveOne(left, done, id);
        Remove(id);
        left, done := left - {id}, done + {id};
      }
    }

    /** The fork starts with the prompts up to `upTo` and no provider session. */
    method Fork(source: nat, upTo: nat, id: nat, title: Text, created: int) returns (chat: Option<Chat>)
      requires Valid() && id !in byId
      modifies this
      ensures Valid()
      ensures chat.None? <==> source !in old(byId) || UpTo(old(byId)[source].prompts, upTo) == []
      ensures chat.None? ==> View() == old(View())
      ensures chat.Some? ==> chat.value == ForkOf(old(byId)[source], upTo, id, title, created)
      ensures chat.Some? ==> View() == Ingest(old(View()), chat.value)
      ensures chat.Some? ==>
        && chat.value.id == id && chat.value.meta.title == title && chat.value.meta.session == None
        && chat.value.meta.model == old(byId)[source].meta.model
        && chat.value.meta.project == old(byId)[source].meta.project
        && forall rec :: rec in chat.value.prompts <==> rec in old(byId)[source].prompts && rec.num <= upTo
      ensures chat.Some? && Numbered(old(byId)[source].prompts) ==>
        var recs := old(byId)[source].prompts;
        chat.value.prompts == recs[..if upTo <= |recs| then upTo else |recs|]
    {
      if source in byId { UpToIsPrefix(byId[source].prompts, upTo); }
      if source !in byId { return None; }
      var kept := UpTo(byId[source].prompts, upTo);
      if |kept| == 0 { return None; }
      var m := byId[source].meta;
      var fork := Chat(id, m.(title := title, session := None, created := created), kept);
      IngestChat(fork);
      return Some(fork);
    }

    method RekeyFork(was: nat, id: nat)
      requires Valid() && was in byId && id !in byId
      modifies this
      ensures Valid() && View() == Rekey(old(View()), was, id)
    {
      RekeyKeepsIndex(View(), was, id);
      var chat := byId[was];
      var home := chat.meta.project;
      byId := byId - {was};
      if home in byProject { byProject := byProject[home := Without(byProject[home], {was}) + [id]]; }
      byId := byId[id := chat.(id := id)];
    }

    /** Listing a project returns exactly the chats a scan of all chats would find. */
    method ListForProject(project: Text, worktree: Option<Text>) returns (chats: seq<Chat>)
      requires Valid()
      ensures forall chat ::
        chat in chats <==> chat.id in byId && byId[chat.id] == chat && InScope(chat, project, worktree)
      ensures DistinctIds(chats)
      ensures chats == Listed(byId, Lookup(View(), project), project, worktree)
    {
      chats := [];
      var ids := Lookup(View(), project);
      for n := 0 to |ids|
        invariant chats == Listed(byId, ids[..n], project, worktree)
      {
        assert ids[..n + 1][..n] == ids[..n];
        assert Has(View(), project, ids[n]);
        if InScope(byId[ids[n]], project, worktree) { chats := chats + [byId[ids[n]]]; }
      }
      assert ids[..|ids|] == ids;
      ListedIsScan(byId, ids, project, worktree);
      forall chat: Chat ensures chat.id in ids <==> Has(View(), project, chat.id) { }
    }

    /** Counting a project counts the chats a scan would find. */
    method CountForProject(project: Text) returns (count: nat)
      requires Valid()
      ensures count == |ChatsOf(View(), project)|
    {
      var ids := Lookup(View(), project);
      count := |ids|;
      NoDupCardinality(ids);
      forall id: nat ensures id in ids <==> Has(View(), project, id) {
      }
      assert Elems(ids) == ChatsOf(View(), project);
    }

    method AppendEvent(chat: nat, prompt: nat, ev: AgentEvent)
      requires Valid()
      modifies this
      ensures Valid() && View() == AppendIn(old(View()), chat, prompt, ev)
    {
      if chat !in byId { return; }
      var recs := byId[chat].prompts;
      match FindPrompt(recs, prompt)
      case None =>
        assert byId[chat := byId[chat].(prompts := recs)] == byId;
      case Some(k) =>
        PutKeepsIndex(View(), byId[chat].(prompts := AppendTo(recs, prompt, ev)));
        byId := byId[chat := byId[chat].(prompts := recs[k := recs[k].(events := Append(recs[k].events, ev))])];
    }

    method RetryPrompt(chat: nat) returns (prompt: Option<PromptRecord>)
      requires Valid()
      modifies this
      ensures Valid()
      ensures chat !in old(byId) || old(byId)[chat].prompts == [] ==> prompt.None? && View() == old(View())
      ensures chat in old(byId) && old(byId)[chat].prompts != [] ==>
                var recs := old(byId)[chat].prompts;
                && prompt == Some(recs[|recs| - 1].(events := [], touched := []))
                && View() == SetPrompts(old(View()), chat, recs[|recs| - 1 := prompt.value])
                && View() == SetPrompts(old(View()), chat, Retried(recs))
    {
      if chat !in byId || |byId[chat].prompts| == 0 { return None; }
      var recs := byId[chat].prompts;
      PutKeepsIndex(View(), byId[chat].(prompts := Retried(recs)));
      var cleared := recs[|recs| - 1].(events := [], touched := []);
      recs := recs[|recs| - 1 := cleared];
      assert recs == Retried(byId[chat].prompts) && recs == byId[chat].prompts[|recs| - 1 := cleared];
      byId := byId[chat := byId[chat].(prompts := recs)];
      return Some(cleared);
    }

    method TruncateFromSeq(chat: nat, num: nat) returns (removed: Option<seq<nat>>)
      requires Valid()
      modifies this
      ensures Valid()
      ensures chat !in old(byId) ==> removed.None? && View() == old(View())
      ensures chat in old(byId) ==> removed == Some(RemovedIds(old(byId)[chat].prompts, num))
      ensures chat in old(byId) ==> View() == SetPrompts(old(View()), chat, Before(old(byId)[chat].prompts, num))
      ensures chat in old(byId) ==>
        forall rec :: rec in byId[chat].prompts <==> rec in old(byId)[chat].prompts && rec.num < num
      ensures chat in old(byId) && Numbered(old(byId)[chat].prompts) ==>
        var recs, k := old(byId)[chat].prompts, FirstCut(old(byId)[chat].prompts, num);
        byId[chat].prompts == recs[..k] && removed.value == RecIds(recs[k..])
    {
      if chat !in byId { return None; }
      var recs := byId[chat].prompts;
      BeforeIsBelow(recs, num);
      if Numbered(recs) {
        BeforeIsTake(recs, FirstCut(recs, num), num);
        RemovedIsRest(recs, FirstCut(recs, num), num);
      }
      PutKeepsIndex(View(), byId[chat].(prompts := Before(recs, num)));
      byId := byId[chat := byId[chat].(prompts := Before(recs, num))];
      removed := Some(RemovedIds(recs, num));
    }

    method IngestPrompt(chat: nat, prompt: PromptRecord) returns (found: bool)
      requires Valid()
      modifies this
      ensures Valid() && found == (chat in old(byId))
      ensures View() == if found then SetPrompts(old(View()), chat, old(byId)[chat].prompts + [prompt]) else old(View())
    {
      found := chat in byId;
      if found {
        PutKeepsIndex(View(), byId[chat].(prompts := byId[chat].prompts + [prompt]));
        byId := byId[chat := byId[chat].(prompts := byId[chat].prompts + [prompt])];
      }
    }

    method UpdateMeta(chat: nat, meta: Meta)
      requires Valid() && (chat in byId ==> byId[chat].meta.project == meta.project)
      modifies this
      ensures Valid() && View() == SetMeta(old(View()), chat, meta)
    {
      if chat in byId {
        PutKeepsIndex(View(), byId[chat].(meta := meta));
        byId := byId[chat := byId[chat].(meta := meta)];
      }
    }
  }
}
