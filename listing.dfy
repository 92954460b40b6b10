/**
 * Ordered listings of row ids. Every row id is handed out by one increasing
 * counter, so a larger id is a later `created_at`; "newest first" is
 * "largest id first". The default orderings of the tables are built from
 * these pieces: a descending scan of the ids, grouping by a rank, an
 * insertion sort by a key, and taking a page from the front.
 */
module Listing {

  /** Strictly decreasing: newest first, and no id twice. */
  predicate Descending(r: seq<nat>) {
    forall i, j :: 0 <= i < j < |r| ==> r[i] > r[j]
  }

  /** The ids below `n` that satisfy `keep`, newest first. */
  function Newest(n: nat, keep: nat -> bool): (r: seq<nat>)
    ensures forall i :: 0 <= i < |r| ==> r[i] < n && keep(r[i])
    ensures forall k: nat :: k < n && keep(k) ==> k in r
    ensures Descending(r)
  {
    if n == 0 then []
    else if keep(n - 1) then [n - 1] + Newest(n - 1, keep)
    else Newest(n - 1, keep)
  }

  /** Ordered by rank ascending, and newest first among equal ranks. */
  predicate RankOrdered(r: seq<nat>, rank: nat -> nat) {
    forall i, j :: 0 <= i < j < |r| ==>
      rank(r[i]) < rank(r[j]) || (rank(r[i]) == rank(r[j]) && r[i] > r[j])
  }

  /**
   * The ids below `n` that satisfy `keep` and whose rank lies in [lo, hi),
   * by rank and then newest first.
   */
  function ByRank(n: nat, keep: nat -> bool, rank: nat -> nat, lo: nat, hi: nat): (r: seq<nat>)
    ensures forall i :: 0 <= i < |r| ==> r[i] < n && keep(r[i]) && lo <= rank(r[i]) < hi
    ensures forall k: nat :: k < n && keep(k) && lo <= rank(k) < hi ==> k in r
    ensures RankOrdered(r, rank)
    decreases hi - lo
  {
    if lo >= hi then []
    else
      var first := Newest(n, (k: nat) => keep(k) && rank(k) == lo);
      var rest := ByRank(n, keep, rank, lo + 1, hi);
      RankOrderedAppend(first, rest, rank);
      first + rest
  }

  /** Two rank-ordered listings, the first of lower ranks only, append to a rank-ordered listing. */
  lemma RankOrderedAppend(first: seq<nat>, rest: seq<nat>, rank: nat -> nat)
    requires RankOrdered(first, rank) && RankOrdered(rest, rank)
    requires forall i, j :: 0 <= i < |first| && 0 <= j < |rest| ==> rank(first[i]) < rank(rest[j])
    ensures RankOrdered(first + rest, rank)
  {
    var r := first + rest;
    forall i, j | 0 <= i < j < |r|
      ensures rank(r[i]) < rank(r[j]) || (rank(r[i]) == rank(r[j]) && r[i] > r[j])
    {
      if j < |first| {
        assert r[i] == first[i] && r[j] == first[j];
      } else if i < |first| {
        assert r[i] == first[i] && r[j] == rest[j - |first|];
      } else {
        assert r[i] == rest[i - |first|] && r[j] == rest[j - |first|];
      }
    }
  }

  /** Ordered by key, largest key first. */
  predicate KeyDescending(r: seq<nat>, key: nat -> int) {
    forall i, j :: 0 <= i < j < |r| ==> key(r[i]) >= key(r[j])
  }

  /** Every element of a key-descending listing has a key no larger than its head's. */
  lemma {:induction false} HeadHasLargestKey(xs: seq<nat>, key: nat -> int, y: nat)
    requires KeyDescending(xs, key) && xs != []
    requires y in multiset(xs)
    ensures key(y) <= key(xs[0])
  {
    var m :| 0 <= m < |xs| && xs[m] == y;
    if m > 0 {
      assert key(xs[0]) >= key(xs[m]);
    }
  }

  /** A head whose key bounds every key of a key-descending listing extends it. */
  lemma ConsKeyDescending(h: nat, rest: seq<nat>, key: nat -> int)
    requires KeyDescending(rest, key)
    requires forall y :: y in multiset(rest) ==> key(y) <= key(h)
    ensures KeyDescending([h] + rest, key)
  {
    var r := [h] + rest;
    forall i, j | 0 <= i < j < |r| ensures key(r[i]) >= key(r[j]) {
      assert r[j] == rest[j - 1] && rest[j - 1] in multiset(rest);
      if i > 0 {
        assert r[i] == rest[i - 1];
      }
    }
  }

  /** Puts `x` before the first element whose key is smaller. */
  function InsertByKey(x: nat, xs: seq<nat>, key: nat -> int): (r: seq<nat>)
    requires KeyDescending(xs, key)
    ensures KeyDescending(r, key)
    ensures multiset(r) == multiset(xs) + multiset{x}
  {
    if xs == [] then [x]
    else if key(x) >= key(xs[0]) then [x] + xs
    else
      var tail := xs[1..];
      assert KeyDescending(tail, key);
      var rest := InsertByKey(x, tail, key);
      assert xs == [xs[0]] + tail;
      forall y | y in multiset(rest) ensures key(y) <= key(xs[0]) {
        if y != x {
          HeadHasLargestKey(xs, key, y);
        }
      }
      ConsKeyDescending(xs[0], rest, key);
      [xs[0]] + rest
  }

  /** Insertion sort, largest key first; the result is a permutation of the input. */
  function SortByKey(xs: seq<nat>, key: nat -> int): (r: seq<nat>)
    ensures KeyDescending(r, key)
    ensures multiset(r) == multiset(xs)
  {
    if xs == [] then []
    else
      assert xs == [xs[0]] + xs[1..];
      InsertByKey(xs[0], SortByKey(xs[1..], key), key)
  }

  /** The first `k` entries of a listing, as a `[:k]` slice gives them. */
  function Page(r: seq<nat>, k: nat): (p: seq<nat>)
    ensures |p| <= k && |p| <= |r|
    ensures p == r[..|p|]
    ensures |r| >= k ==> |p| == k
    ensures |r| <= k ==> p == r
  {
    if |r| <= k then r else r[..k]
  }

  /** A page holds only listed ids, and leaves one out only when it is full. */
  lemma PageFromList(r: seq<nat>, k: nat)
    ensures forall x :: x in Page(r, k) ==> x in r
    ensures forall x :: x in r && x !in Page(r, k) ==> |Page(r, k)| == k
  {
  }

  /** Every id of a listing left out of its first page sorts no earlier than the page's ids. */
  lemma PageHoldsLargestKeys(r: seq<nat>, key: nat -> int, k: nat, x: nat)
    requires KeyDescending(r, key)
    requires x in r && x !in Page(r, k)
    ensures |Page(r, k)| == k
    ensures forall y :: y in Page(r, k) ==> key(y) >= key(x)
  {
    var p := Page(r, k);
    var j :| 0 <= j < |r| && r[j] == x;
    assert p == r[..|p|];
    forall y | y in p ensures key(y) >= key(x) {
      var i :| 0 <= i < |p| && p[i] == y;
      assert r[i] == y;
    }
  }

  /** The ids of a listing that satisfy `keep`, in their listed order (a query-set `filter`). */
  function Keep(xs: seq<nat>, keep: nat -> bool): (r: seq<nat>)
    ensures forall x :: x in r <==> x in xs && keep(x)
    ensures |r| <= |xs|
  {
    if xs == [] then []
    else if keep(xs[0]) then [xs[0]] + Keep(xs[1..], keep)
    else Keep(xs[1..], keep)
  }

  /** Every id is listed before every later one, by `before`. */
  predicate Ordered(r: seq<nat>, before: (nat, nat) -> bool) {
    forall i, j :: 0 <= i < j < |r| ==> before(r[i], r[j])
  }

  /** Filtering keeps every pairwise ordering the listing had. */
  lemma {:induction false} KeepKeepsOrder(xs: seq<nat>, keep: nat -> bool, before: (nat, nat) -> bool)
    requires Ordered(xs, before)
    ensures Ordered(Keep(xs, keep), before)
  {
    if xs != [] {
      var tail := xs[1..];
      assert Ordered(tail, before) by {
        forall i, j | 0 <= i < j < |tail| ensures before(tail[i], tail[j]) {
          assert tail[i] == xs[i + 1] && tail[j] == xs[j + 1];
        }
      }
      KeepKeepsOrder(tail, keep, before);
      if keep(xs[0]) {
        var r := Keep(xs, keep);
        forall j | 0 < j < |r| ensures before(r[0], r[j]) {
          assert r[j] in Keep(tail, keep);
          var m :| 0 <= m < |tail| && tail[m] == r[j];
          assert xs[m + 1] == r[j];
        }
      }
    }
  }

  /** A page keeps the order of its listing. */
  lemma PageKeepsOrder(r: seq<nat>, k: nat, before: (nat, nat) -> bool)
    requires Ordered(r, before)
    ensures Ordered(Page(r, k), before)
  {
    var p := Page(r, k);
    forall i, j | 0 <= i < j < |p| ensures before(p[i], p[j]) {
      assert p[i] == r[i] && p[j] == r[j];
    }
  }

  /** Two filters applied one after the other are one filter on both conditions. */
  lemma {:induction false} KeepTwice(xs: seq<nat>, p: nat -> bool, q: nat -> bool)
    ensures Keep(Keep(xs, p), q) == Keep(xs, (x: nat) => p(x) && q(x))
  {
    if xs != [] {
      KeepTwice(xs[1..], p, q);
    }
  }

  /** Filters that agree on every listed id give the same listing. */
  lemma {:induction false} KeepSame(xs: seq<nat>, p: nat -> bool, q: nat -> bool)
    requires forall x :: x in xs ==> p(x) == q(x)
    ensures Keep(xs, p) == Keep(xs, q)
  {
    if xs != [] {
      KeepSame(xs[1..], p, q);
    }
  }

  /** A filter that every id passes leaves the listing as it was. */
  lemma {:induction false} KeepAll(xs: seq<nat>, keep: nat -> bool)
    requires forall x :: x in xs ==> keep(x)
    ensures Keep(xs, keep) == xs
  {
    if xs != [] {
      KeepAll(xs[1..], keep);
    }
  }

  /** No id appears twice. */
  predicate Distinct(r: seq<nat>) {
    forall i, j :: 0 <= i < j < |r| ==> r[i] != r[j]
  }

  /** A listing with no repeated id is exactly as long as the set of ids it lists. */
  lemma {:induction false} DistinctLength(r: seq<nat>, ids: set<nat>)
    requires Distinct(r)
    requires forall x :: x in r <==> x in ids
    ensures |ids| == |r|
    decreases |r|
  {
    if r != [] {
      var tail := r[1..];
      assert r == [r[0]] + tail;
      assert Distinct(tail) && r[0] !in tail by {
        forall i | 0 <= i < |tail| ensures tail[i] == r[i + 1] != r[0] {
        }
      }
      DistinctLength(tail, ids - {r[0]});
    }
  }

  /** In a listing with no repeated id, every id occurs at most once. */
  lemma {:induction false} DistinctOccursOnce(r: seq<nat>, x: nat)
    requires Distinct(r)
    ensures multiset(r)[x] <= 1
    decreases |r|
  {
    if r != [] {
      var tail := r[1..];
      assert r == [r[0]] + tail;
      assert multiset(r) == multiset{r[0]} + multiset(tail);
      assert Distinct(tail) by {
        forall i, j | 0 <= i < j < |tail| ensures tail[i] != tail[j] {
          assert tail[i] == r[i + 1] && tail[j] == r[j + 1];
        }
      }
      DistinctOccursOnce(tail, x);
      if x == r[0] {
        assert x !in tail by {
          forall i | 0 <= i < |tail| ensures tail[i] != x {
            assert tail[i] == r[i + 1];
          }
        }
        assert multiset(tail)[x] == 0;
      }
    }
  }

  /** A reordering of a listing with no repeated id has no repeated id either. */
  lemma DistinctPermutation(a: seq<nat>, b: seq<nat>)
    requires Distinct(a) && multiset(a) == multiset(b)
    ensures Distinct(b)
  {
    forall i, j | 0 <= i < j < |b| ensures b[i] != b[j] {
      if b[i] == b[j] {
        var x := b[i];
        assert b == b[..i] + [x] + b[i + 1..j] + [x] + b[j + 1..];
        assert multiset(b)[x] >= 2;
        DistinctOccursOnce(a, x);
        assert false;
      }
    }
  }
}
