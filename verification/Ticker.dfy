/** The schedule table and the ticker that fires what is due. */
module Ticker {
  import opened Util

  const MIN_INTERVAL_SECS := 10

  /** `interval` in seconds for a recurring schedule; times in milliseconds. */
  datatype Schedule = Schedule(id: nat, chat: nat, body: string, interval: Option<int>, next: int, enabled: bool)

  /** What the ticker finds for a due schedule: its last copy still pending, its message sent or
      refused, or its chat gone. */
  datatype Outcome = StillQueued | Sent | Refused | ChatGone

  predicate Due(s: Schedule, now: int) {
    s.enabled && s.next <= now
  }

  function Period(s: Schedule): int
    requires s.interval.Some?
  {
    s.interval.value * 1000
  }

  /** Records a fire: a one-time schedule is done, a recurring one keeps its cadence unless the
      next slot has passed too. */
  function MarkRan(s: Schedule, now: int): Schedule {
    if s.interval.None? then s.(enabled := false)
    else if s.next + Period(s) > now then s.(next := s.next + Period(s))
    else s.(next := now + Period(s))
  }

  function Handled(s: Schedule, now: int, outcome: Outcome): Schedule {
    var ran := MarkRan(s, now);
    if outcome.ChatGone? then ran.(enabled := false) else ran
  }

  predicate Accepted(s: Schedule) {
    s.interval.Some? ==> s.interval.value >= MIN_INTERVAL_SECS
  }

  predicate UniqueIds(table: seq<Schedule>) {
    forall i, j | 0 <= i < j < |table| :: table[i].id != table[j].id
  }

  predicate InOrder(due: seq<Schedule>, k: nat)
    requires k + 1 < |due|
  {
    due[k].next <= due[k + 1].next
  }

  predicate ByTime(due: seq<Schedule>) {
    forall k: nat | k + 1 < |due| :: InOrder(due, k)
  }

  function InsertByTime(due: seq<Schedule>, s: Schedule): seq<Schedule> {
    if due == [] || due[|due| - 1].next <= s.next then due + [s]
    else InsertByTime(due[..|due| - 1], s) + [due[|due| - 1]]
  }

  lemma ByTimeSnoc(due: seq<Schedule>, s: Schedule)
    requires ByTime(due) && (due == [] || due[|due| - 1].next <= s.next)
    ensures ByTime(due + [s])
  {
    forall k: nat | k + 1 < |due + [s]| ensures InOrder(due + [s], k) {
      if k + 1 < |due| { assert InOrder(due, k); }
    }
  }

  lemma ByTimeInit(due: seq<Schedule>)
    requires ByTime(due) && due != []
    ensures ByTime(due[..|due| - 1])
    ensures |due| > 1 ==> due[|due| - 2].next <= due[|due| - 1].next
  {
    var init := due[..|due| - 1];
    forall k: nat | k + 1 < |init| ensures InOrder(init, k) { assert InOrder(due, k); }
    if |due| > 1 { assert InOrder(due, |due| - 2); }
  }

  lemma {:induction false} InsertSorts(due: seq<Schedule>, s: Schedule)
    requires ByTime(due)
    ensures var r := InsertByTime(due, s);
            ByTime(r) && r != [] && (r[|r| - 1] == s || (due != [] && r[|r| - 1] == due[|due| - 1]))
  {
    if due == [] || due[|due| - 1].next <= s.next {
      ByTimeSnoc(due, s);
    } else {
      var n := |due| - 1;
      ByTimeInit(due);
      InsertSorts(due[..n], s);
      ByTimeSnoc(InsertByTime(due[..n], s), due[n]);
    }
  }

  lemma {:induction false} InsertAdds(due: seq<Schedule>, s: Schedule)
    ensures multiset(InsertByTime(due, s)) == multiset(due) + multiset{s}
  {
    if due != [] && due[|due| - 1].next > s.next {
      InsertAdds(due[..|due| - 1], s);
      assert due == due[..|due| - 1] + [due[|due| - 1]];
    }
  }

  /** SELECT ... WHERE enabled AND next_run_at <= now ORDER BY next_run_at. */
  function DueNow(table: seq<Schedule>, now: int): seq<Schedule> {
    if table == [] then []
    else
      var last := table[|table| - 1];
      var due := DueNow(table[..|table| - 1], now);
      if Due(last, now) then InsertByTime(due, last) else due
  }

  lemma {:induction false} DueNowSorted(table: seq<Schedule>, now: int)
    ensures ByTime(DueNow(table, now))
  {
    if table != [] {
      DueNowSorted(table[..|table| - 1], now);
      InsertSorts(DueNow(table[..|table| - 1], now), table[|table| - 1]);
    }
  }

  /** The query returns each due row once and nothing else. */
  lemma {:induction false} DueNowExact(table: seq<Schedule>, now: int, s: Schedule)
    requires UniqueIds(table)
    ensures multiset(DueNow(table, now))[s] == if s in table && Due(s, now) then 1 else 0
  {
    if table != [] {
      var n := |table| - 1;
      DueNowExact(table[..n], now, s);
      assert table == table[..n] + [table[n]];
      assert table[n] !in table[..n];
      if Due(table[n], now) { InsertAdds(DueNow(table[..n], now), table[n]); }
    }
  }

  class Scheduler {
    var table: seq<Schedule>

    constructor (table: seq<Schedule>)
      ensures this.table == table
    {
      this.table := table;
    }

    /** UPDATE ... WHERE id. */
    method Mark(id: nat, now: int)
      modifies this
      ensures |table| == |old(table)|
      ensures forall k | 0 <= k < |table| ::
        table[k] == if old(table)[k].id == id then MarkRan(old(table)[k], now) else old(table)[k]
    {
      table := seq(|table|, k requires 0 <= k < |table| reads this =>
          if table[k].id == id then MarkRan(table[k], now) else table[k]);
    }

    method Disable(id: nat)
      modifies this
      ensures |table| == |old(table)|
      ensures forall k | 0 <= k < |table| ::
        table[k] == if old(table)[k].id == id then old(table)[k].(enabled := false) else old(table)[k]
    {
      table := seq(|table|, k requires 0 <= k < |table| reads this =>
          if table[k].id == id then table[k].(enabled := false) else table[k]);
    }

    method Fire(id: nat, now: int, outcome: Outcome)
      modifies this
      ensures |table| == |old(table)|
      ensures forall k | 0 <= k < |table| ::
        table[k] == if old(table)[k].id == id then Handled(old(table)[k], now, outcome) else old(table)[k]
    {
      Mark(id, now);
      if outcome.ChatGone? { Disable(id); }
    }

    /** Every due schedule is advanced before its send is tried, so none is due again at `now`
        whatever becomes of the send; the others stay as they are. */
    method FireDue(now: int, outcome: nat -> Outcome) returns (fired: seq<Schedule>)
      requires UniqueIds(table) && forall k | 0 <= k < |table| :: Accepted(table[k])
      modifies this
      ensures ByTime(fired)
      ensures forall s :: multiset(fired)[s] == if s in old(table) && Due(s, now) then 1 else 0
      ensures |table| == |old(table)|
      ensures forall k | 0 <= k < |table| :: table[k] == AfterFire(old(table)[k], now, outcome)
      ensures forall k | 0 <= k < |table| :: !Due(table[k], now)
    {
      ghost var before := table;
      fired := DueNow(table, now);
      DueNowSorted(table, now);
      forall s ensures multiset(fired)[s] == if s in before && Due(s, now) then 1 else 0 {
        DueNowExact(before, now, s);
      }
      OnceEach(fired);
      for n := 0 to |fired|
        invariant Progress(before, table, fired[..n], now, outcome)
      {
        assert fired[..n + 1] == fired[..n] + [fired[n]];
        assert fired[n] !in fired[..n];
        assert fired[n] in multiset(fired);
        label L:
        Fire(fired[n].id, now, outcome(fired[n].id));
        ProgressStep(before, old@L(table), table, fired[..n], fired[n], now, outcome);
      }
      assert fired[..|fired|] == fired;
      AllFired(before, table, now, outcome);
    }
  }

  ghost predicate Progress(before: seq<Schedule>, table: seq<Schedule>, done: seq<Schedule>, now: int,
      outcome: nat -> Outcome) {
    && |table| == |before|
    && forall k | 0 <= k < |table| ::
         table[k] == if before[k] in done then Handled(before[k], now, outcome(before[k].id)) else before[k]
  }

  lemma ProgressStep(before: seq<Schedule>, mid: seq<Schedule>, after: seq<Schedule>, done: seq<Schedule>, s: Schedule,
      now: int, outcome: nat -> Outcome)
    requires UniqueIds(before) && s in before && s !in done && Progress(before, mid, done, now, outcome)
    requires |after| == |mid|
    requires forall k | 0 <= k < |mid| ::
      after[k] == if mid[k].id == s.id then Handled(mid[k], now, outcome(s.id)) else mid[k]
    ensures Progress(before, after, done + [s], now, outcome)
  {
    var i :| 0 <= i < |before| && before[i] == s;
    forall k | 0 <= k < |after|
      ensures after[k] == if before[k] in done + [s] then Handled(before[k], now, outcome(before[k].id)) else before[k]
    {
      assert mid[k].id == before[k].id;
    }
  }

  lemma AllFired(before: seq<Schedule>, table: seq<Schedule>, now: int, outcome: nat -> Outcome)
    requires UniqueIds(before) && Progress(before, table, DueNow(before, now), now, outcome)
    requires forall k | 0 <= k < |before| :: Accepted(before[k])
    ensures forall k | 0 <= k < |table| :: table[k] == AfterFire(before[k], now, outcome) && !Due(table[k], now)
  {
    DueByIndex(before, now);
    forall k | 0 <= k < |table| ensures table[k] == AfterFire(before[k], now, outcome) && !Due(table[k], now) {
      assert Accepted(before[k]);
    }
  }

  function AfterFire(s: Schedule, now: int, outcome: nat -> Outcome): Schedule {
    if Due(s, now) then Handled(s, now, outcome(s.id)) else s
  }

  /** What a fire does to the schedule: the message, the chat and the interval stay; a one-time
      schedule is done; a recurring one is next due later than now, and is switched off if and only
      if its chat is gone. Whatever is not due stays as it is. */
  lemma FireLeaves(s: Schedule, now: int, outcome: nat -> Outcome)
    requires Accepted(s)
    ensures var t := AfterFire(s, now, outcome);
            && t.id == s.id && t.chat == s.chat && t.body == s.body && t.interval == s.interval
            && (!Due(s, now) ==> t == s)
            && (Due(s, now) && s.interval.None? ==> !t.enabled)
            && (Due(s, now) && s.interval.Some? ==> t.next > now && (t.enabled <==> !outcome(s.id).ChatGone?))
  {
  }

  lemma OnceEach(xs: seq<Schedule>)
    requires forall s :: multiset(xs)[s] <= 1
    ensures NoDup(xs)
  {
    forall i, j | 0 <= i < j < |xs| ensures xs[i] != xs[j] {
      assert xs == xs[..j] + [xs[j]] + xs[j + 1..];
      assert xs[i] in xs[..j];
      assert multiset(xs)[xs[j]] == multiset(xs[..j])[xs[j]] + 1 + multiset(xs[j + 1..])[xs[j]];
    }
  }

  lemma DueByIndex(table: seq<Schedule>, now: int)
    requires UniqueIds(table)
    ensures forall k | 0 <= k < |table| :: table[k] in DueNow(table, now) <==> Due(table[k], now)
  {
    forall k | 0 <= k < |table| ensures table[k] in DueNow(table, now) <==> Due(table[k], now) {
      DueNowExact(table, now, table[k]);
      assert table[k] in DueNow(table, now) <==> table[k] in multiset(DueNow(table, now));
    }
  }

  // ----- one schedule over many ticks ---------------------------------------------------

  datatype Tick = Tick(now: int, outcome: Outcome)

  function Ticked(s: Schedule, ticks: seq<Tick>): Schedule {
    if ticks == [] then s
    else
      var before := Ticked(s, ticks[..|ticks| - 1]);
      var tick := ticks[|ticks| - 1];
      if Due(before, tick.now) then Handled(before, tick.now, tick.outcome) else before
  }

  function Fires(s: Schedule, ticks: seq<Tick>): nat {
    if ticks == [] then 0
    else Fires(s, ticks[..|ticks| - 1]) + if Due(Ticked(s, ticks[..|ticks| - 1]), ticks[|ticks| - 1].now) then 1 else 0
  }

  lemma {:induction false} SlotsAdvance(s: Schedule, ticks: seq<Tick>, until: int)
    requires s.interval.Some? && Accepted(s) && forall k | 0 <= k < |ticks| :: ticks[k].now <= until
    ensures Ticked(s, ticks).interval == s.interval
    ensures Ticked(s, ticks).next >= s.next + Fires(s, ticks) * Period(s)
    ensures Fires(s, ticks) > 0 ==> s.next + (Fires(s, ticks) - 1) * Period(s) <= until
  {
    if ticks != [] {
      var n := |ticks| - 1;
      SlotsAdvance(s, ticks[..n], until);
      var f := Fires(s, ticks[..n]);
      assert (f + 1) * Period(s) == f * Period(s) + Period(s);
    }
  }

  /** However ticks come, late, early or doubled, a recurring schedule fires at most once per
      elapsed interval and once more: a long pause is made up by one fire, not by many. */
  lemma FiresAreSpaced(s: Schedule, ticks: seq<Tick>, until: int)
    requires s.interval.Some? && Accepted(s) && forall k | 0 <= k < |ticks| :: ticks[k].now <= until
    ensures Fires(s, ticks) > 0 ==> (Fires(s, ticks) - 1) * Period(s) <= until - s.next
  {
    SlotsAdvance(s, ticks, until);
  }

  lemma {:induction false} OneTimeFiresOnce(s: Schedule, ticks: seq<Tick>)
    requires s.interval.None?
    ensures Fires(s, ticks) <= 1 && Ticked(s, ticks).interval.None?
    ensures Fires(s, ticks) == 1 ==> !Ticked(s, ticks).enabled
  {
    if ticks != [] { OneTimeFiresOnce(s, ticks[..|ticks| - 1]); }
  }

  /** No fire came a whole period late. */
  predicate InTime(s: Schedule, ticks: seq<Tick>)
    requires s.interval.Some?
  {
    ticks == []
    || (InTime(s, ticks[..|ticks| - 1])
        && (Due(Ticked(s, ticks[..|ticks| - 1]), ticks[|ticks| - 1].now)
            ==> ticks[|ticks| - 1].now < Ticked(s, ticks[..|ticks| - 1]).next + Period(s)))
  }

  /** The schedule stays on its original cadence exactly when no fire came a whole period late;
      otherwise it has fallen behind the grid. */
  lemma {:induction false} CadenceKeptIff(s: Schedule, ticks: seq<Tick>)
    requires s.interval.Some? && Accepted(s)
    ensures Ticked(s, ticks).interval == s.interval
    ensures Ticked(s, ticks).next >= s.next + Fires(s, ticks) * Period(s)
    ensures Ticked(s, ticks).next == s.next + Fires(s, ticks) * Period(s) <==> InTime(s, ticks)
  {
    if ticks != [] {
      var n := |ticks| - 1;
      CadenceKeptIff(s, ticks[..n]);
      var f := Fires(s, ticks[..n]);
      assert (f + 1) * Period(s) == f * Period(s) + Period(s);
    }
  }
}
