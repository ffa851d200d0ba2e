/**
 The per-chat queue rows and the store operations on them.

 Rows are kept in creation order; the store reads them ORDER BY position, then creation.
 Each operation is a function on the row sequence, used by the dispatch protocol as one
 atomic store step, and a method of `QueueRepo` that updates the rows in place.
 */
module QueueStore {
  import opened Util

  datatype Row = Row(id: nat, body: string, running: bool, pos: int)

  predicate UniqueIds(rows: seq<Row>) {
    forall i, j | 0 <= i < j < |rows| :: rows[i].id != rows[j].id
  }

  predicate HasPending(rows: seq<Row>) {
    exists k | 0 <= k < |rows| :: !rows[k].running
  }

  function Ids(rows: seq<Row>): (r: seq<nat>)
    ensures |r| == |rows|
    ensures forall k | 0 <= k < |r| :: r[k] == rows[k].id
  {
    seq(|rows|, k requires 0 <= k < |rows| => rows[k].id)
  }

  function PendingCount(rows: seq<Row>): nat {
    if rows == [] then 0
    else PendingCount(rows[..|rows| - 1]) + if rows[|rows| - 1].running then 0 else 1
  }

  /** `SELECT COALESCE(MAX(position), -1) + 1`. */
  function NextPos(rows: seq<Row>): (p: int)
    ensures forall k | 0 <= k < |rows| :: rows[k].pos < p
    ensures rows == [] ==> p == 0
  {
    if rows == [] then 0
    else
      var p := NextPos(rows[..|rows| - 1]);
      var last := rows[|rows| - 1].pos;
      if |rows| == 1 || p <= last then last + 1 else p
  }

  /** The next position is one above the highest in use. */
  lemma {:induction false} NextPosIsOneAbove(rows: seq<Row>)
    ensures forall k | 0 <= k < |rows| :: rows[k].pos < NextPos(rows)
    ensures rows != [] ==> exists k | 0 <= k < |rows| :: rows[k].pos + 1 == NextPos(rows)
    ensures rows == [] ==> NextPos(rows) == 0
  {
    if |rows| > 1 {
      var n := |rows| - 1;
      NextPosIsOneAbove(rows[..n]);
      var k :| 0 <= k < n && rows[..n][k].pos + 1 == NextPos(rows[..n]);
      assert rows[n].pos + 1 == NextPos(rows) || rows[k].pos + 1 == NextPos(rows);
    } else if rows != [] {
      assert rows[0].pos + 1 == NextPos(rows);
    }
  }

  /** Row `k` comes before row `j` in the order the store lists and pops them. */
  predicate Before(rows: seq<Row>, k: nat, j: nat)
    requires k < |rows| && j < |rows|
  {
    rows[k].pos < rows[j].pos || (rows[k].pos == rows[j].pos && k <= j)
  }

  predicate IsHead(rows: seq<Row>, k: nat) {
    && k < |rows| && !rows[k].running
    && forall j | 0 <= j < |rows| && !rows[j].running :: Before(rows, k, j)
  }

  /** Index of the pending row that the store pops next. */
  function Head(rows: seq<Row>): (h: Option<nat>)
    ensures h.None? <==> !HasPending(rows)
    ensures h.Some? ==> IsHead(rows, h.value)
  {
    if rows == [] then None
    else
      var n := |rows| - 1;
      var h := Head(rows[..n]);
      assert forall j | 0 <= j < n :: rows[..n][j] == rows[j];
      assert HasPending(rows) <==> HasPending(rows[..n]) || !rows[n].running;
      assert h.Some? ==> forall j | 0 <= j < n && !rows[j].running :: Before(rows[..n], h.value, j);
      if rows[n].running then h
      else if h.None? || rows[n].pos < rows[h.value].pos then Some(n)
      else h
  }

  lemma HeadUnique(rows: seq<Row>, k: nat)
    requires IsHead(rows, k)
    ensures Head(rows) == Some(k)
  {
    assert HasPending(rows);
    var h := Head(rows).value;
    assert Before(rows, h, k) && Before(rows, k, h);
  }

  /** Index of the row with this id, if any; ids are a primary key. */
  function Find(rows: seq<Row>, id: nat): (k: Option<nat>)
    ensures k.Some? ==> k.value < |rows| && rows[k.value].id == id
    ensures k.None? ==> forall j | 0 <= j < |rows| :: rows[j].id != id
  {
    if rows == [] then None
    else if rows[|rows| - 1].id == id then Some(|rows| - 1)
    else Find(rows[..|rows| - 1], id)
  }

  lemma FindUnique(rows: seq<Row>, k: nat)
    requires UniqueIds(rows) && k < |rows|
    ensures Find(rows, rows[k].id) == Some(k)
  {
  }

  // ----- the statements, as functions on the rows ---------------------------------------

  function Insert(rows: seq<Row>, id: nat, body: string, pos: int): seq<Row> {
    rows + [Row(id, body, false, pos)]
  }

  function MarkRunning(rows: seq<Row>, k: nat): seq<Row>
    requires k < |rows|
  {
    rows[k := rows[k].(running := true)]
  }

  /** UPDATE to pending WHERE id matches AND status = 'running'. Position is untouched. */
  function Reset(rows: seq<Row>, id: nat): seq<Row> {
    match Find(rows, id)
    case Some(k) => if rows[k].running then rows[k := rows[k].(running := false)] else rows
    case None => rows
  }

  /** DELETE WHERE id matches AND the status is the given one. */
  function Delete(rows: seq<Row>, id: nat, running: bool): seq<Row> {
    match Find(rows, id)
    case Some(k) => if rows[k].running == running then RemoveAt(rows, k) else rows
    case None => rows
  }

  function UpdateBody(rows: seq<Row>, id: nat, body: string): seq<Row> {
    match Find(rows, id)
    case Some(k) => if rows[k].running then rows else rows[k := rows[k].(body := body)]
    case None => rows
  }

  /** Index of the pending row with this id: `pop_specific_pending`'s SELECT. */
  function FindPending(rows: seq<Row>, id: nat): (k: Option<nat>)
    ensures k.Some? ==> k.value < |rows| && rows[k.value].id == id && !rows[k.value].running
  {
    match Find(rows, id)
    case Some(k) => if rows[k].running then None else Some(k)
    case None => None
  }

  /** Startup: every Running row becomes Pending again. */
  function Recover(rows: seq<Row>): (r: seq<Row>)
    ensures |r| == |rows| && forall k | 0 <= k < |r| :: r[k] == rows[k].(running := false)
  {
    seq(|rows|, k requires 0 <= k < |rows| => rows[k].(running := false))
  }

  // ----- drain order and reorder --------------------------------------------------------

  lemma {:induction false} CountConcat(a: seq<Row>, b: seq<Row>)
    ensures PendingCount(a + b) == PendingCount(a) + PendingCount(b)
  {
    if b == [] {
      assert a + b == a;
    } else {
      var n := |b| - 1;
      CountConcat(a, b[..n]);
      assert (a + b)[..|a| + n] == a + b[..n];
    }
  }

  lemma CountSplit(rows: seq<Row>, k: nat)
    requires k < |rows|
    ensures PendingCount(rows)
         == PendingCount(rows[..k]) + PendingCount(rows[k + 1..]) + if rows[k].running then 0 else 1
  {
    var one := [rows[k]];
    assert rows == rows[..k] + one + rows[k + 1..];
    CountConcat(rows[..k] + one, rows[k + 1..]);
    CountConcat(rows[..k], one);
    assert one[..0] == [] && PendingCount(one) == PendingCount(one[..0]) + if one[0].running then 0 else 1;
  }

  lemma CountUpdate(rows: seq<Row>, k: nat, r: Row)
    requires k < |rows|
    ensures PendingCount(rows[k := r]) == PendingCount(rows)
        + (if r.running then 0 else 1) - (if rows[k].running then 0 else 1)
  {
    CountSplit(rows, k);
    CountSplit(rows[k := r], k);
    assert rows[k := r][..k] == rows[..k] && rows[k := r][k + 1..] == rows[k + 1..];
  }

  lemma CountRemove(rows: seq<Row>, k: nat)
    requires k < |rows|
    ensures PendingCount(RemoveAt(rows, k)) == PendingCount(rows) - if rows[k].running then 0 else 1
  {
    CountSplit(rows, k);
    CountConcat(rows[..k], rows[k + 1..]);
  }

  lemma CountZero(rows: seq<Row>)
    ensures PendingCount(rows) == 0 <==> !HasPending(rows)
  {
    if HasPending(rows) {
      var k :| 0 <= k < |rows| && !rows[k].running;
      CountSplit(rows, k);
    } else if rows != [] {
      assert forall k | 0 <= k < |rows| - 1 :: rows[..|rows| - 1][k] == rows[k];
      CountZero(rows[..|rows| - 1]);
    }
  }

  /** The ids in the order successive pops would take them. */
  function PendingOrder(rows: seq<Row>): seq<nat>
    decreases PendingCount(rows)
  {
    match Head(rows)
    case None => []
    case Some(k) =>
      CountUpdate(rows, k, rows[k].(running := true));
      [rows[k].id] + PendingOrder(MarkRunning(rows, k))
  }

  lemma PendingUnfold(rows: seq<Row>, k: nat)
    requires IsHead(rows, k)
    ensures PendingOrder(rows) == [rows[k].id] + PendingOrder(MarkRunning(rows, k))
  {
    HeadUnique(rows, k);
  }

  /** The requested ids that are pending, each once, in the requested order. */
  function Listed(current: seq<nat>, ids: seq<nat>): (r: seq<nat>)
    ensures NoDup(r)
    ensures forall x :: x in r <==> x in current && x in ids
  {
    if ids == [] then []
    else
      var r := Listed(current, ids[..|ids| - 1]);
      var x := ids[|ids| - 1];
      assert ids == ids[..|ids| - 1] + [x];
      if x in current && x !in r then r + [x] else r
  }

  /** The ids of `current` that are not in `listed`, in their existing order. */
  function Rest(current: seq<nat>, listed: seq<nat>): (r: seq<nat>)
    ensures forall x :: x in r <==> x in current && x !in listed
    ensures NoDup(current) ==> NoDup(r)
  {
    if current == [] then []
    else
      var x := current[|current| - 1];
      assert current == current[..|current| - 1] + [x];
      var r := Rest(current[..|current| - 1], listed);
      if x in listed then r else r + [x]
  }

  lemma ListedStep(current: seq<nat>, ids: seq<nat>, i: nat)
    requires i < |ids|
    ensures var r := Listed(current, ids[..i]);
            Listed(current, ids[..i + 1]) == if ids[i] in current && ids[i] !in r then r + [ids[i]] else r
  {
    assert ids[..i + 1][..i] == ids[..i];
  }

  lemma RestStep(current: seq<nat>, i: nat, listed: seq<nat>)
    requires NoDup(current) && i < |current|
    ensures var r := Rest(current[..i], listed);
            && (current[i] in listed + r <==> current[i] in listed)
            && listed + Rest(current[..i + 1], listed)
               == if current[i] in listed then listed + r else listed + r + [current[i]]
  {
    assert current[..i + 1][..i] == current[..i];
    assert current[i] !in current[..i];
  }

  function FinalOrder(current: seq<nat>, ids: seq<nat>): seq<nat> {
    Listed(current, ids) + Rest(current, Listed(current, ids))
  }

  function IndexOf(xs: seq<nat>, x: nat): (k: nat)
    requires x in xs
    ensures k < |xs| && xs[k] == x
  {
    if xs[|xs| - 1] == x then |xs| - 1
    else
      assert xs == xs[..|xs| - 1] + [xs[|xs| - 1]];
      IndexOf(xs[..|xs| - 1], x)
  }

  /** Pending rows get their place in `order` as position; other rows are untouched. */
  function AssignPositions(rows: seq<Row>, order: seq<nat>): (r: seq<Row>)
    ensures |r| == |rows|
    ensures forall k | 0 <= k < |rows| ::
      r[k] == if !rows[k].running && rows[k].id in order then rows[k].(pos := IndexOf(order, rows[k].id)) else rows[k]
  {
    seq(|rows|, k requires 0 <= k < |rows| =>
      if !rows[k].running && rows[k].id in order then rows[k].(pos := IndexOf(order, rows[k].id)) else rows[k])
  }

  function Reorder(rows: seq<Row>, ids: seq<nat>): seq<Row> {
    AssignPositions(rows, FinalOrder(PendingOrder(rows), ids))
  }

  /** Pop order lists exactly the pending ids. */
  lemma {:induction false} PendingOrderIds(rows: seq<Row>)
    requires UniqueIds(rows)
    ensures NoDup(PendingOrder(rows))
    ensures forall x :: x in PendingOrder(rows) <==> exists k | 0 <= k < |rows| :: !rows[k].running && rows[k].id == x
    decreases PendingCount(rows)
  {
    match Head(rows)
    case None =>
    case Some(k) =>
      var rest := MarkRunning(rows, k);
      CountUpdate(rows, k, rows[k].(running := true));
      PendingOrderIds(rest);
      assert forall j | 0 <= j < |rows| && j != k :: rest[j] == rows[j];
      assert rows[k].id !in PendingOrder(rest);
      forall x ensures x in PendingOrder(rows) <==> exists j | 0 <= j < |rows| :: !rows[j].running && rows[j].id == x {
        if x == rows[k].id {
        } else if x in PendingOrder(rest) {
          var j :| 0 <= j < |rest| && !rest[j].running && rest[j].id == x;
          assert !rows[j].running && rows[j].id == x;
        } else {
          assert forall j | 0 <= j < |rest| && !rest[j].running :: rest[j].id != x;
        }
      }
  }

  ghost predicate PendingAt(rows: seq<Row>, p: int) {
    exists k | 0 <= k < |rows| :: !rows[k].running && rows[k].pos == p
  }

  /** The pending rows are exactly `order[from..]`, each positioned at its index. */
  ghost predicate Ranked(rows: seq<Row>, order: seq<nat>, from: nat) {
    && from <= |order|
    && (forall k | 0 <= k < |rows| && !rows[k].running ::
        from <= rows[k].pos < |order| && order[rows[k].pos] == rows[k].id)
    && (forall t | from <= t < |order| :: PendingAt(rows, t))
  }

  lemma RankedStep(rows: seq<Row>, order: seq<nat>, from: nat) returns (k: nat)
    requires UniqueIds(rows) && NoDup(order) && Ranked(rows, order, from) && from < |order|
    ensures IsHead(rows, k) && rows[k].id == order[from]
    ensures UniqueIds(MarkRunning(rows, k)) && Ranked(MarkRunning(rows, k), order, from + 1)
  {
    assert PendingAt(rows, from);
    k :| 0 <= k < |rows| && !rows[k].running && rows[k].pos == from;
    var rest := MarkRunning(rows, k);
    forall j | 0 <= j < |rows| && !rows[j].running && j != k ensures from < rows[j].pos {
      assert rows[j].id != rows[k].id;
      assert order[rows[j].pos] == rows[j].id && order[from] == rows[k].id;
    }
    forall t | from + 1 <= t < |order| ensures PendingAt(rest, t) {
      assert PendingAt(rows, t);
      var j :| 0 <= j < |rows| && !rows[j].running && rows[j].pos == t;
      assert !rest[j].running && rest[j].pos == t;
    }
  }

  lemma {:induction false} RankedOrder(rows: seq<Row>, order: seq<nat>, from: nat)
    requires UniqueIds(rows) && NoDup(order) && Ranked(rows, order, from)
    ensures PendingOrder(rows) == order[from..]
    decreases |order| - from
  {
    if from == |order| {
      NoneRanked(rows, order);
    } else {
      var k := RankedStep(rows, order, from);
      PendingUnfold(rows, k);
      RankedOrder(MarkRunning(rows, k), order, from + 1);
      Peel(order, from);
    }
  }

  lemma NoneRanked(rows: seq<Row>, order: seq<nat>)
    requires Ranked(rows, order, |order|)
    ensures PendingOrder(rows) == []
  {
    assert !HasPending(rows);
  }

  /** What reorder is for: the queue afterwards drains in the requested order, with the
      omitted items behind, in the order they already had; running rows keep everything. */
  lemma ReorderDrainsAsAsked(rows: seq<Row>, ids: seq<nat>)
    requires UniqueIds(rows)
    ensures PendingOrder(Reorder(rows, ids)) == FinalOrder(PendingOrder(rows), ids)
    ensures multiset(FinalOrder(PendingOrder(rows), ids)) == multiset(PendingOrder(rows))
    ensures forall k | 0 <= k < |rows| && rows[k].running :: Reorder(rows, ids)[k] == rows[k]
  {
    var current := PendingOrder(rows);
    PendingOrderIds(rows);
    FinalOrderPermutes(current, ids);
    AssignedIsRanked(rows, FinalOrder(current, ids));
    RankedOrder(Reorder(rows, ids), FinalOrder(current, ids), 0);
    assert FinalOrder(current, ids)[0..] == FinalOrder(current, ids);
  }

  lemma FinalOrderPermutes(current: seq<nat>, ids: seq<nat>)
    requires NoDup(current)
    ensures NoDup(FinalOrder(current, ids))
    ensures forall x :: x in FinalOrder(current, ids) <==> x in current
    ensures multiset(FinalOrder(current, ids)) == multiset(current)
  {
    var listed := Listed(current, ids);
    var rest := Rest(current, listed);
    assert forall j | 0 <= j < |rest| :: rest[j] in rest;
    NoDupSameElements(listed + rest, current);
  }

  /** Some `x` stands before some `y`. */
  predicate Ahead(xs: seq<nat>, x: nat, y: nat) {
    exists a, b | 0 <= a < b < |xs| :: xs[a] == x && xs[b] == y
  }

  predicate FirstAt(ids: seq<nat>, i: nat)
    requires i < |ids|
  {
    ids[i] !in ids[..i]
  }

  /** The requested pending ids stand in the order in which the request first names them, all before
      the omitted ones, and these in their old order. */
  ghost predicate AsAsked(was: seq<nat>, ids: seq<nat>, now: seq<nat>) {
    && multiset(now) == multiset(was)
    && (forall i: nat, j: nat | i < j < |ids| && FirstAt(ids, i) && FirstAt(ids, j) && ids[i] in was && ids[j] in was ::
          Ahead(now, ids[i], ids[j]))
    && (forall x, y | x in was && y in was && x in ids && y !in ids :: Ahead(now, x, y))
    && (forall a: nat, b: nat | a < b < |was| && was[a] !in ids && was[b] !in ids :: Ahead(now, was[a], was[b]))
  }

  lemma AheadMore(xs: seq<nat>, ys: seq<nat>, x: nat, y: nat)
    requires Ahead(xs, x, y) || Ahead(ys, x, y) || (x in xs && y in ys)
    ensures Ahead(xs + ys, x, y)
  {
    var all := xs + ys;
    if Ahead(xs, x, y) {
      var a, b :| 0 <= a < b < |xs| && xs[a] == x && xs[b] == y;
      assert all[a] == x && all[b] == y;
    } else if Ahead(ys, x, y) {
      var a, b :| 0 <= a < b < |ys| && ys[a] == x && ys[b] == y;
      assert all[|xs| + a] == x && all[|xs| + b] == y;
    } else {
      var a :| 0 <= a < |xs| && xs[a] == x;
      var b :| 0 <= b < |ys| && ys[b] == y;
      assert all[a] == x && all[|xs| + b] == y;
    }
  }

  lemma {:induction false} ListedInOrder(current: seq<nat>, ids: seq<nat>, i: nat, j: nat)
    requires i < j < |ids| && FirstAt(ids, i) && FirstAt(ids, j) && ids[i] in current && ids[j] in current
    ensures Ahead(Listed(current, ids), ids[i], ids[j])
  {
    var n := |ids| - 1;
    var init := ids[..n];
    assert init[..i] == ids[..i] && init[i] == ids[i];
    var more := Listed(current, ids)[|Listed(current, init)|..];
    assert Listed(current, ids) == Listed(current, init) + more;
    if j < n {
      assert init[..j] == ids[..j];
      ListedInOrder(current, init, i, j);
    } else {
      assert ids[j] !in Listed(current, init) && more == [ids[j]];
    }
    AheadMore(Listed(current, init), more, ids[i], ids[j]);
  }

  lemma {:induction false} RestInOrder(current: seq<nat>, listed: seq<nat>, a: nat, b: nat)
    requires a < b < |current| && current[a] !in listed && current[b] !in listed
    ensures Ahead(Rest(current, listed), current[a], current[b])
  {
    var n := |current| - 1;
    var init := current[..n];
    var more := if current[n] in listed then [] else [current[n]];
    assert Rest(current, listed) == Rest(init, listed) + more;
    assert init[a] == current[a];
    if b < n { RestInOrder(init, listed, a, b); }
    AheadMore(Rest(init, listed), more, current[a], current[b]);
  }

  /** What a reorder is for, read off the order in which the queue drains. */
  lemma ReorderHonoursRequest(rows: seq<Row>, ids: seq<nat>)
    requires UniqueIds(rows)
    ensures AsAsked(PendingOrder(rows), ids, PendingOrder(Reorder(rows, ids)))
  {
    ReorderDrainsAsAsked(rows, ids);
    FinalAsAsked(PendingOrder(rows), ids);
  }

  lemma FinalAsAsked(was: seq<nat>, ids: seq<nat>)
    requires multiset(FinalOrder(was, ids)) == multiset(was)
    ensures AsAsked(was, ids, FinalOrder(was, ids))
  {
    var listed := Listed(was, ids);
    var rest := Rest(was, listed);
    forall i: nat, j: nat | i < j < |ids| && FirstAt(ids, i) && FirstAt(ids, j) && ids[i] in was && ids[j] in was
      ensures Ahead(listed + rest, ids[i], ids[j]) {
      ListedInOrder(was, ids, i, j);
      AheadMore(listed, rest, ids[i], ids[j]);
    }
    forall x, y | x in was && y in was && x in ids && y !in ids ensures Ahead(listed + rest, x, y) {
      AheadMore(listed, rest, x, y);
    }
    forall a: nat, b: nat | a < b < |was| && was[a] !in ids && was[b] !in ids
      ensures Ahead(listed + rest, was[a], was[b]) {
      RestInOrder(was, listed, a, b);
      AheadMore(listed, rest, was[a], was[b]);
    }
  }

  lemma AssignedIsRanked(rows: seq<Row>, order: seq<nat>)
    requires UniqueIds(rows) && NoDup(order)
    requires forall x :: x in order <==> x in PendingOrder(rows)
    ensures Ranked(AssignPositions(rows, order), order, 0)
  {
    var out := AssignPositions(rows, order);
    PendingOrderIds(rows);
    forall t | 0 <= t < |order| ensures PendingAt(out, t) {
      assert order[t] in order;
      var k :| 0 <= k < |rows| && !rows[k].running && rows[k].id == order[t];
      assert !out[k].running && out[k].pos == t;
    }
    forall k | 0 <= k < |out| && !out[k].running ensures 0 <= out[k].pos < |order| && order[out[k].pos] == out[k].id {
      assert !rows[k].running && rows[k].id in PendingOrder(rows);
    }
  }

  lemma {:induction false} NoDupSameElements(a: seq<nat>, b: seq<nat>)
    requires NoDup(a) && NoDup(b) && forall x :: x in a <==> x in b
    ensures multiset(a) == multiset(b)
  {
    forall x ensures multiset(a)[x] == multiset(b)[x] {
      NoDupCount(a, x);
      NoDupCount(b, x);
    }
  }

  lemma {:induction false} NoDupCount(a: seq<nat>, x: nat)
    requires NoDup(a)
    ensures multiset(a)[x] == if x in a then 1 else 0
  {
    if a != [] {
      var n := |a| - 1;
      NoDupCount(a[..n], x);
      assert a == a[..n] + [a[n]];
      assert a[n] !in a[..n];
    }
  }

  /** A reset undoes a pop, of the head or of any other row: the item is back in its place. */
  lemma ResetUndoesPop(rows: seq<Row>, k: nat)
    requires UniqueIds(rows) && k < |rows| && !rows[k].running
    ensures Reset(MarkRunning(rows, k), rows[k].id) == rows
  {
    FindUnique(MarkRunning(rows, k), k);
  }

  // ----- the repository -----------------------------------------------------------------

  lemma RemovedRows(rows: seq<Row>, k: nat)
    requires UniqueIds(rows) && k < |rows|
    ensures forall r :: r in RemoveAt(rows, k) <==> r in rows && r.id != rows[k].id
  {
    forall r | r in rows && r.id != rows[k].id ensures r in RemoveAt(rows, k) {
      var j :| 0 <= j < |rows| && rows[j] == r;
      assert RemoveAt(rows, k)[if j < k then j else j - 1] == r;
    }
  }

  lemma DeletedRow(rows: seq<Row>, k: nat)
    requires UniqueIds(rows) && k < |rows| && rows[k].running
    ensures Delete(rows, rows[k].id, true) == RemoveAt(rows, k) && rows[k] in rows
    ensures forall r :: r in RemoveAt(rows, k) <==> r in rows && !(r.id == rows[k].id && r.running)
  {
    FindUnique(rows, k);
    RemovedRows(rows, k);
    forall r | r in rows && r.id == rows[k].id ensures r == rows[k] {
      var j :| 0 <= j < |rows| && rows[j] == r;
    }
  }

  lemma NothingDeleted(rows: seq<Row>, id: nat)
    requires UniqueIds(rows) && (Find(rows, id).Some? ==> !rows[Find(rows, id).value].running)
    ensures Delete(rows, id, true) == rows && forall r | r in rows :: !(r.id == id && r.running)
  {
    forall r | r in rows ensures !(r.id == id && r.running) {
      var j :| 0 <= j < |rows| && rows[j] == r;
      if r.id == id { FindUnique(rows, j); }
    }
  }

  class QueueRepo {
    var rows: seq<Row>
    var auto: bool

    ghost predicate Valid() reads this { UniqueIds(rows) }

    constructor ()
      ensures Valid() && rows == [] && !auto
    {
      rows, auto := [], false;
    }

    method Enqueue(id: nat, body: string) returns (item: Row)
      requires Valid() && Find(rows, id).None?
      modifies this`rows
      ensures Valid()
      ensures rows == old(rows) + [item] && item.id == id && item.body == body && !item.running
      ensures PendingOrder(rows) == PendingOrder(old(rows)) + [id]
    {
      item := Row(id, body, false, NextPos(rows));
      AppendIsLast(rows, item);
      rows := Insert(rows, id, body, item.pos);
    }

    method PopNextPending() returns (item: Option<Row>)
      requires Valid()
      modifies this`rows
      ensures Valid()
      ensures item.None? <==> PendingOrder(old(rows)) == []
      ensures item.None? ==> rows == old(rows)
      ensures item.Some? ==> PendingOrder(old(rows)) == [item.value.id] + PendingOrder(rows)
      ensures item.Some? ==> item.value.running && item.value in rows && Ids(rows) == Ids(old(rows))
    {
      match Head(rows) {
        case None => item := None;
        case Some(k) =>
          rows := MarkRunning(rows, k);
          item := Some(rows[k]);
      }
    }

    method PopSpecificPending(id: nat) returns (item: Option<Row>)
      requires Valid()
      modifies this`rows
      ensures Valid()
      ensures item.None? <==> id !in PendingOrder(old(rows))
      ensures item.None? ==> rows == old(rows)
      ensures item.Some? ==> item.value.id == id && item.value.running && item.value in rows
      ensures item.Some? ==> exists k | 0 <= k < |old(rows)| ::
          rows == MarkRunning(old(rows), k) && rows[k] == item.value
    {
      PendingOrderIds(rows);
      match FindPending(rows, id) {
        case None => item := None;
        case Some(k) =>
          rows := MarkRunning(rows, k);
          item := Some(rows[k]);
      }
    }

    method MarkDone(id: nat) returns (removed: bool)
      requires Valid()
      modifies this`rows
      ensures Valid()
      ensures removed <==> exists r | r in old(rows) :: r.id == id && r.running
      ensures forall r :: r in rows <==> r in old(rows) && !(r.id == id && r.running)
      ensures !removed ==> rows == old(rows)
      ensures removed ==> exists k | 0 <= k < |old(rows)| :: old(rows)[k].id == id && rows == RemoveAt(old(rows), k)
    {
      removed := Find(rows, id).Some? && rows[Find(rows, id).value].running;
      if removed { DeletedRow(rows, Find(rows, id).value); } else { NothingDeleted(rows, id); }
      rows := Delete(rows, id, true);
    }

    method ResetToPending(id: nat) returns (changed: bool)
      requires Valid()
      modifies this`rows
      ensures Valid() && rows == Reset(old(rows), id)
      ensures changed <==> exists r | r in old(rows) :: r.id == id && r.running
    {
      changed := false;
      match Find(rows, id) {
        case Some(k) =>
          FindUnique(rows, k);
          changed := rows[k].running;
          assert rows[k] in rows;
          if changed {
            rows := rows[k := rows[k].(running := false)];
          }
        case None =>
      }
    }

    /** Builds the final order with the same two scans as the transaction. */
    method ReorderPending(ids: seq<nat>)
      requires Valid()
      modifies this`rows
      ensures Valid()
      ensures rows == Reorder(old(rows), ids)
      ensures PendingOrder(rows) == FinalOrder(PendingOrder(old(rows)), ids)
      ensures AsAsked(PendingOrder(old(rows)), ids, PendingOrder(rows))
    {
      PendingOrderIds(rows);
      ReorderDrainsAsAsked(rows, ids);
      ReorderHonoursRequest(rows, ids);
      var order := BuildOrder(PendingOrder(rows), ids);
      rows := AssignPositions(rows, order);
    }
  }

  method BuildOrder(current: seq<nat>, ids: seq<nat>) returns (order: seq<nat>)
    requires NoDup(current)
    ensures order == FinalOrder(current, ids)
    ensures AsAsked(current, ids, order)
  {
    FinalOrderPermutes(current, ids);
    FinalAsAsked(current, ids);
    order := [];
    for i := 0 to |ids|
      invariant order == Listed(current, ids[..i])
    {
      ListedStep(current, ids, i);
      if ids[i] in current && ids[i] !in order {
        order := order + [ids[i]];
      }
    }
    assert ids[..|ids|] == ids;
    var listed := order;
    for i := 0 to |current|
      invariant order == listed + Rest(current[..i], listed)
    {
      RestStep(current, i, listed);
      if current[i] !in order {
        order := order + [current[i]];
      }
    }
    assert current[..|current|] == current;
  }

  /** A row positioned above every other is popped last. */
  lemma {:induction false} AppendIsLast(rows: seq<Row>, last: Row)
    requires !last.running && forall k | 0 <= k < |rows| :: rows[k].pos <= last.pos
    ensures PendingOrder(rows + [last]) == PendingOrder(rows) + [last.id]
    decreases PendingCount(rows)
  {
    match Head(rows)
    case Some(k) =>
      CountUpdate(rows, k, rows[k].(running := true));
      AppendIsLast(MarkRunning(rows, k), last);
      PendingUnfold(rows, k);
      AppendedHead(rows, last, k);
      Snoc(rows[k].id, PendingOrder(MarkRunning(rows, k)), last.id);
    case None =>
      OnlyPending(rows, last);
  }

  lemma AppendedHead(rows: seq<Row>, last: Row, k: nat)
    requires IsHead(rows, k) && forall j | 0 <= j < |rows| :: rows[j].pos <= last.pos
    ensures PendingOrder(rows + [last]) == [rows[k].id] + PendingOrder(MarkRunning(rows, k) + [last])
  {
    HeadStays(rows, last, k);
    PendingUnfold(rows + [last], k);
    MarkBeforeLast(rows, last, k);
  }

  lemma MarkBeforeLast(rows: seq<Row>, last: Row, k: nat)
    requires k < |rows|
    ensures MarkRunning(rows + [last], k) == MarkRunning(rows, k) + [last] && (rows + [last])[k] == rows[k]
  {
  }

  lemma Snoc(x: nat, xs: seq<nat>, y: nat)
    ensures [x] + (xs + [y]) == ([x] + xs) + [y]
  {
  }

  lemma HeadStays(rows: seq<Row>, last: Row, k: nat)
    requires IsHead(rows, k) && forall j | 0 <= j < |rows| :: rows[j].pos <= last.pos
    ensures IsHead(rows + [last], k)
  {
    var all := rows + [last];
    forall j | 0 <= j < |all| && !all[j].running ensures Before(all, k, j) {
      if j < |rows| { assert Before(rows, k, j); }
    }
  }

  lemma OnlyPending(rows: seq<Row>, last: Row)
    requires !HasPending(rows) && !last.running
    ensures PendingOrder(rows) == [] && PendingOrder(rows + [last]) == [last.id]
  {
    var all, n := rows + [last], |rows|;
    forall j | 0 <= j < |all| && !all[j].running ensures Before(all, n, j) {
      assert j == n;
    }
    PendingUnfold(all, n);
    forall j | 0 <= j < |all| ensures MarkRunning(all, n)[j].running {
      if j < n { assert all[j] == rows[j]; }
    }
  }
}
