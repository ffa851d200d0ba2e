/** Small shared vocabulary: an option type and a few facts about sequences. */
module Util {

  datatype Option<+T> = None | Some(value: T)

  predicate NoDup<T(==)>(xs: seq<T>) {
    forall i, j | 0 <= i < j < |xs| :: xs[i] != xs[j]
  }

  /** The last `n` elements, or everything when there are fewer. */
  function LastN<T>(xs: seq<T>, n: nat): (r: seq<T>)
    ensures |r| == if |xs| <= n then |xs| else n
    ensures r <= xs || |r| == n
  {
    if |xs| <= n then xs else xs[|xs| - n..]
  }

  /** `xs` without the element at `k`. */
  function RemoveAt<T>(xs: seq<T>, k: nat): (r: seq<T>)
    requires k < |xs|
    ensures |r| == |xs| - 1
    ensures forall j | 0 <= j < |r| :: r[j] == if j < k then xs[j] else xs[j + 1]
  {
    xs[..k] + xs[k + 1..]
  }

  lemma RemoveAtMultiset<T>(xs: seq<T>, k: nat)
    requires k < |xs|
    ensures multiset(RemoveAt(xs, k)) == multiset(xs) - multiset{xs[k]}
    ensures multiset(xs) == multiset(RemoveAt(xs, k)) + multiset{xs[k]}
  {
    assert xs == xs[..k] + [xs[k]] + xs[k + 1..];
  }

  lemma NoDupAppend<T>(xs: seq<T>, x: T)
    requires NoDup(xs) && x !in xs
    ensures NoDup(xs + [x])
  {
  }

  lemma Peel<T>(xs: seq<T>, k: nat)
    requires k < |xs|
    ensures xs[k..] == [xs[k]] + xs[k + 1..]
  {
  }

  /** Nothing, or `i` itself. */
  predicate Mine(o: Option<nat>, i: nat) {
    o.None? || o.value == i
  }

  lemma SubAdd(m: multiset<nat>, h: nat, x: nat)
    requires h in m
    ensures (m + multiset{x}) - multiset{h} == (m - multiset{h}) + multiset{x}
  {
  }

  /** One more on the left is balanced by one more in either place on the right. */
  lemma AddBoth(a: multiset<nat>, d: multiset<nat>, t: multiset<nat>, w: multiset<nat>, g: multiset<nat>, x: nat)
    requires a + d == t + w + g
    ensures (a + multiset{x}) + d == t + (w + multiset{x}) + g
    ensures (a + multiset{x}) + d == (t + multiset{x}) + w + g
    ensures a + (d + multiset{x}) == t + (w + multiset{x}) + g
  {
    var more := multiset{x};
    assert (a + more) + d == (a + d) + more;
    assert a + (d + more) == (a + d) + more;
    assert (t + w + g) + more == t + (w + more) + g;
    assert (t + w + g) + more == (t + more) + w + g;
  }

  lemma MoveOver(a: multiset<nat>, d: multiset<nat>, t: multiset<nat>, w: multiset<nat>, g: multiset<nat>, x: nat)
    requires a + d == t + (w + multiset{x}) + g
    ensures a + d == (t + multiset{x}) + w + g
    ensures a + d == t + w + (g + multiset{x})
  {
    assert (t + multiset{x}) + w + g == t + (w + multiset{x}) + g;
    assert t + w + (g + multiset{x}) == t + (w + multiset{x}) + g;
  }

  // ----- leaving elements out ---------------------------------------------------------------

  function Elems(ids: seq<nat>): set<nat> {
    set id | id in ids
  }

  /** The ids that are not `gone`, in their order. */
  function Without(ids: seq<nat>, gone: set<nat>): seq<nat> {
    if ids == [] then []
    else Without(ids[..|ids| - 1], gone) + if ids[|ids| - 1] in gone then [] else [ids[|ids| - 1]]
  }

  lemma NoDupSnoc(ids: seq<nat>, id: nat)
    ensures NoDup(ids + [id]) <==> NoDup(ids) && id !in ids
  {
    var more := ids + [id];
    if NoDup(more) {
      forall i, j | 0 <= i < j < |ids| ensures ids[i] != ids[j] {
        assert more[i] == ids[i] && more[j] == ids[j];
      }
      forall i | 0 <= i < |ids| ensures ids[i] != id {
        assert more[i] == ids[i] && more[|ids|] == id;
      }
    }
  }

  lemma {:induction false} WithoutIn(ids: seq<nat>, gone: set<nat>, id: nat)
    ensures id in Without(ids, gone) <==> id in ids && id !in gone
  {
    if ids != [] {
      WithoutIn(ids[..|ids| - 1], gone, id);
      assert ids == ids[..|ids| - 1] + [ids[|ids| - 1]];
    }
  }

  lemma {:induction false} WithoutNoDup(ids: seq<nat>, gone: set<nat>)
    requires NoDup(ids)
    ensures NoDup(Without(ids, gone))
  {
    if ids != [] {
      var n := |ids| - 1;
      WithoutNoDup(ids[..n], gone);
      WithoutIn(ids[..n], gone, ids[n]);
      NoDupSnoc(Without(ids[..n], gone), ids[n]);
    }
  }

  lemma {:induction false} WithoutNone(ids: seq<nat>, gone: set<nat>)
    requires forall id | id in ids :: id !in gone
    ensures Without(ids, gone) == ids
  {
    if ids != [] {
      WithoutNone(ids[..|ids| - 1], gone);
      assert ids == ids[..|ids| - 1] + [ids[|ids| - 1]];
    }
  }

  lemma {:induction false} WithoutTwice(ids: seq<nat>, gone: set<nat>, id: nat)
    ensures Without(Without(ids, gone), {id}) == Without(ids, gone + {id})
  {
    if ids != [] {
      var n := |ids| - 1;
      WithoutTwice(ids[..n], gone, id);
      var kept := Without(ids[..n], gone);
      if ids[n] !in gone { assert (kept + [ids[n]])[..|kept|] == kept; } else { assert kept + [] == kept; }
    }
  }
}
