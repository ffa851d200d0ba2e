/** Bounded views of a chat: the newest prompts first, older ones page by page. */
module Paging {
  import opened Util
  import opened ChatStore
  import opened ChatRegistry
  import Restart

  const PROMPTS_WINDOW: nat := 50
  const EVENTS_PER_PROMPT: nat := 200
  const MAX_LIMIT: nat := 200

  datatype View = View(prompts: seq<PromptRecord>, total: nat)

  datatype Backfill = Backfill(prompts: seq<PromptRecord>, atStart: bool)

  function Shown(rec: PromptRecord): PromptRecord {
    rec.(events := LastN(rec.events, EVENTS_PER_PROMPT))
  }

  function AllShown(recs: seq<PromptRecord>): (r: seq<PromptRecord>)
    ensures |r| == |recs|
  {
    seq(|recs|, k requires 0 <= k < |recs| => Shown(recs[k]))
  }

  /** A shown prompt is the stored one but for its oldest events. */
  lemma ShownKeeps(recs: seq<PromptRecord>, k: nat)
    requires k < |recs|
    ensures var rec, shown := recs[k], AllShown(recs)[k];
            && shown.id == rec.id && shown.num == rec.num
            && shown.content == rec.content && shown.touched == rec.touched
            && shown.events == rec.events[if |rec.events| <= 200 then 0 else |rec.events| - 200..]
  {
  }

  /** GET of a chat; the total is a 32-bit count. */
  function WindowChat(recs: seq<PromptRecord>): View {
    View(AllShown(LastN(recs, PROMPTS_WINDOW)), |recs| % 0x1_0000_0000)
  }

  function Clamp(limit: nat): nat {
    if limit < 1 then 1 else if limit > MAX_LIMIT then MAX_LIMIT else limit
  }

  /** GET of older prompts: those numbered below `before`, the newest `limit` of them. */
  function ListBefore(recs: seq<PromptRecord>, before: nat, limit: nat): Backfill {
    var older := Before(recs, before);
    Backfill(AllShown(LastN(older, Clamp(limit))), |older| <= Clamp(limit))
  }

  predicate Rising(recs: seq<PromptRecord>) {
    forall i, j | 0 <= i < j < |recs| :: recs[i].num < recs[j].num
  }

  lemma NumberedRises(recs: seq<PromptRecord>)
    requires Numbered(recs)
    ensures Rising(recs)
  {
  }

  /** A page continues downwards where the held part begins; it is never empty while something
      older exists, and says it is the last exactly when nothing older is left. */
  lemma PageContinues(recs: seq<PromptRecord>, k: nat, limit: nat) returns (j: nat)
    requires Rising(recs) && k < |recs|
    ensures j <= k && (k > 0 ==> j < k) && k - j <= MAX_LIMIT
    ensures ListBefore(recs, recs[k].num, limit).prompts == AllShown(recs[j..k])
    ensures ListBefore(recs, recs[k].num, limit).atStart <==> j == 0
  {
    forall i | 0 <= i < |recs| ensures recs[i].num < recs[k].num <==> i < k {
      if i > k { assert recs[k].num < recs[i].num; }
    }
    BeforeIsTake(recs, k, recs[k].num);
    j := if k <= Clamp(limit) then 0 else k - Clamp(limit);
    assert LastN(recs[..k], Clamp(limit)) == recs[j..k];
  }

  /** `held` is what a client holds: the newest prompts from position `k` on. */
  predicate Holds(recs: seq<PromptRecord>, held: seq<PromptRecord>, k: nat) {
    k <= |recs| && held == AllShown(recs[k..])
  }

  lemma ShownJoins(recs: seq<PromptRecord>, j: nat, k: nat)
    requires j <= k <= |recs|
    ensures AllShown(recs[j..k]) + AllShown(recs[k..]) == AllShown(recs[j..])
  {
    assert recs[j..] == recs[j..k] + recs[k..];
  }

  /** The client's loop: asks for the prompts before the oldest it holds until told it has all.
      `limits(n)` is the limit it sends in request `n`. */
  method Reassemble(recs: seq<PromptRecord>, limits: nat -> nat) returns (held: seq<PromptRecord>, pages: nat)
    requires Rising(recs)
    ensures held == AllShown(recs)
    ensures pages <= |recs| + 1
  {
    held := WindowChat(recs).prompts;
    pages := 0;
    ghost var k: nat := |recs| - |held|;
    assert recs[k..] == LastN(recs, PROMPTS_WINDOW);
    var atStart := |held| == 0;
    while !atStart
      invariant Holds(recs, held, k)
      invariant atStart ==> k == 0
      invariant !atStart ==> k < |recs| && pages <= |recs| - k
      invariant pages <= |recs| - k + 1
      decreases !atStart, k
    {
      assert held[0] == Shown(recs[k]);
      var page := ListBefore(recs, held[0].num, limits(pages));
      ghost var j := PageContinues(recs, k, limits(pages));
      ShownJoins(recs, j, k);
      held, atStart, pages := page.prompts + held, page.atStart, pages + 1;
      k := j;
    }
    assert recs[k..] == recs;
  }

  /** After any completed requests the loop rebuilds every live chat, as the store lists it. */
  method ReassembleChat(ops: seq<Restart.Op>, chat: nat, limits: nat -> nat)
      returns (held: seq<PromptRecord>, pages: nat)
    requires chat in Restart.Runs(ops).cache.byId
    ensures held == AllShown(ListPrompts(Restart.Runs(ops).store.prompts, chat))
    ensures pages <= |held| + 1
  {
    var recs := Restart.Runs(ops).cache.byId[chat].prompts;
    CachedIsListed(ops, chat);
    NumberedRises(recs);
    held, pages := Reassemble(recs, limits);
  }

  lemma CachedIsListed(ops: seq<Restart.Op>, chat: nat)
    requires chat in Restart.Runs(ops).cache.byId
    ensures var recs := Restart.Runs(ops).cache.byId[chat].prompts;
            Numbered(recs) && recs == ListPrompts(Restart.Runs(ops).store.prompts, chat)
  {
    Restart.PromptsStayNumbered(ops, chat);
    Restart.RunsSound(ops);
    assert Restart.ChatAgrees(Restart.Runs(ops).store, Restart.Runs(ops).cache, chat);
    NumberedIsSorted(RowsOf(Restart.Runs(ops).store.prompts, chat));
  }

  /** Nothing is hidden from a chat that fits the window, and the total tells. */
  lemma WindowIsWholeIff(recs: seq<PromptRecord>)
    requires |recs| < 0x1_0000_0000
    ensures WindowChat(recs).prompts == AllShown(recs) <==> |recs| <= PROMPTS_WINDOW
    ensures |WindowChat(recs).prompts| < WindowChat(recs).total <==> |recs| > PROMPTS_WINDOW
  {
  }
}
