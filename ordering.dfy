/**
 * Python's `sorted(xs, key=...)` on ratings, as a permutation of positions.
 *
 * Python's sort is stable, so the result is fully determined: position `i`
 * comes before position `j` exactly when its key is smaller, or the keys are
 * equal and `i < j`. `SortedOrder` is an insertion sort proved to produce that
 * order, and to be a permutation of `0 .. |keys| - 1`.
 */
module Ordering {
  import opened Common

  /** Position `i` precedes position `j` in a stable sort by `keys`. */
  predicate Before(keys: seq<real>, i: nat, j: nat)
    requires i < |keys| && j < |keys|
  {
    keys[i] < keys[j] || (keys[i] == keys[j] && i < j)
  }

  ghost predicate InBounds(keys: seq<real>, s: seq<nat>) {
    forall i :: 0 <= i < |s| ==> s[i] < |keys|
  }

  /** `s` lists positions of `keys` in stable-sorted order. */
  ghost predicate StablySorted(keys: seq<real>, s: seq<nat>) {
    && InBounds(keys, s)
    && forall i, j :: 0 <= i < j < |s| ==> Before(keys, s[i], s[j])
  }

  ghost predicate Increasing(s: seq<nat>) {
    forall i, j :: 0 <= i < j < |s| ==> s[i] < s[j]
  }

  /** Inserts `x` before the first element whose key is not smaller. */
  function Insert(keys: seq<real>, x: nat, s: seq<nat>): (r: seq<nat>)
    requires x < |keys| && InBounds(keys, s)
    ensures multiset(r) == multiset(s) + multiset{x}
    ensures InBounds(keys, r)
  {
    if s == [] || keys[x] <= keys[s[0]] then [x] + s
    else
      assert s == [s[0]] + s[1..];
      [s[0]] + Insert(keys, x, s[1..])
  }

  function Sort(keys: seq<real>, idx: seq<nat>): (r: seq<nat>)
    requires InBounds(keys, idx)
    ensures multiset(r) == multiset(idx)
    ensures InBounds(keys, r)
  {
    if idx == [] then []
    else
      assert idx == [idx[0]] + idx[1..];
      Insert(keys, idx[0], Sort(keys, idx[1..]))
  }

  /** Putting `x` in front is stable when its key is at most the first key and it precedes every position. */
  lemma InsertFront(keys: seq<real>, x: nat, s: seq<nat>)
    requires x < |keys| && StablySorted(keys, s)
    requires forall i :: 0 <= i < |s| ==> x < s[i]
    requires s == [] || keys[x] <= keys[s[0]]
    ensures StablySorted(keys, [x] + s)
  {
    var r := [x] + s;
    forall i, j | 0 <= i < j < |r| ensures Before(keys, r[i], r[j]) {
      if i == 0 {
        // keys[x] <= keys[s[0]] <= keys[s[j - 1]], and x < s[j - 1] breaks a tie
        if j > 1 { assert Before(keys, s[0], s[j - 1]); }
      } else {
        assert Before(keys, s[i - 1], s[j - 1]);
      }
    }
  }

  /** The head of a stable order precedes every element of `Insert(keys, x, s[1..])` when its key is below x's. */
  lemma HeadBeforeInserted(keys: seq<real>, x: nat, s: seq<nat>)
    requires x < |keys| && StablySorted(keys, s) && s != [] && keys[s[0]] < keys[x]
    ensures forall j :: 0 <= j < |Insert(keys, x, s[1..])| ==> Before(keys, s[0], Insert(keys, x, s[1..])[j])
  {
    var t := s[1..];
    var rest := Insert(keys, x, t);
    forall j | 0 <= j < |rest| ensures Before(keys, s[0], rest[j]) {
      assert rest[j] in multiset(rest);
      if rest[j] != x {
        assert rest[j] in multiset(t);
        var m :| 0 <= m < |t| && t[m] == rest[j];
        assert Before(keys, s[0], s[m + 1]);
      }
    }
  }

  /** Inserting a position smaller than every position already sorted keeps the order stable. */
  lemma {:induction false} InsertSorted(keys: seq<real>, x: nat, s: seq<nat>)
    requires x < |keys| && StablySorted(keys, s)
    requires forall i :: 0 <= i < |s| ==> x < s[i]
    ensures StablySorted(keys, Insert(keys, x, s))
  {
    if s == [] || keys[x] <= keys[s[0]] {
      InsertFront(keys, x, s);
    } else {
      var t := s[1..];
      assert StablySorted(keys, t) by {
        forall i, j | 0 <= i < j < |t| ensures Before(keys, t[i], t[j]) {
          assert Before(keys, s[i + 1], s[j + 1]);
        }
      }
      InsertSorted(keys, x, t);
      HeadBeforeInserted(keys, x, s);
      var rest := Insert(keys, x, t);
      var r := [s[0]] + rest;
      assert Insert(keys, x, s) == r;
      forall i, j | 0 <= i < j < |r| ensures Before(keys, r[i], r[j]) {
        assert r[j] == rest[j - 1];
        if i == 0 {
          assert r[i] == s[0] && Before(keys, s[0], rest[j - 1]);
        } else {
          assert r[i] == rest[i - 1] && Before(keys, rest[i - 1], rest[j - 1]);
        }
      }
    }
  }

  lemma {:induction false} SortSorted(keys: seq<real>, idx: seq<nat>)
    requires InBounds(keys, idx) && Increasing(idx)
    ensures StablySorted(keys, Sort(keys, idx))
  {
    if idx != [] {
      var t := idx[1..];
      SortSorted(keys, t);
      var s := Sort(keys, t);
      forall i | 0 <= i < |s| ensures idx[0] < s[i] {
        assert s[i] in multiset(t);
        var m :| 0 <= m < |t| && t[m] == s[i];
        assert idx[m + 1] == s[i];
      }
      InsertSorted(keys, idx[0], s);
    }
  }

  /**
   * The positions of `keys` in the order `sorted(range(n), key=keys.__getitem__)`
   * produces: a permutation of `0 .. |keys| - 1` in stable-sorted order.
   */
  function SortedOrder(keys: seq<real>): (order: seq<nat>)
    ensures |order| == |keys|
    ensures StablySorted(keys, order)
    ensures forall j :: 0 <= j < |keys| ==> j in order
  {
    var idx: seq<nat> := seq(|keys|, i => i);
    assert InBounds(keys, idx) && Increasing(idx);
    SortSorted(keys, idx);
    var order := Sort(keys, idx);
    assert |order| == |idx| by {
      assert |multiset(order)| == |multiset(idx)|;
    }
    assert forall j :: 0 <= j < |keys| ==> j in order by {
      forall j | 0 <= j < |keys| ensures j in order {
        assert idx[j] == j;
        assert j in multiset(idx);
      }
    }
    order
  }

  /** A stably sorted order lists each position once and has non-decreasing keys. */
  lemma SortedOrderFacts(keys: seq<real>, order: seq<nat>)
    requires StablySorted(keys, order)
    ensures Distinct(order)
    ensures forall i, j :: 0 <= i <= j < |order| ==> keys[order[i]] <= keys[order[j]]
  {
    forall i, j | 0 <= i < |order| && 0 <= j < |order| && i != j ensures order[i] != order[j] {
      if i < j { assert Before(keys, order[i], order[j]); }
      else { assert Before(keys, order[j], order[i]); }
    }
    forall i, j | 0 <= i < j < |order| ensures keys[order[i]] <= keys[order[j]] {
      assert Before(keys, order[i], order[j]);
    }
  }
}
