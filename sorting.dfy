/**
 * The library sorts the validators call (`Array.prototype.sort` with a
 * comparator, PHP `usort`): both are stable, so they are modelled by a
 * stable insertion sort on a "may precede" relation `le`. The source has no
 * sorting loop of its own, so the sort is a function.
 */
module Sorting {
  /** `le` is a total preorder: every pair is ordered one way or the other, and it chains. */
  ghost predicate TotalPreorder<T(!new)>(le: (T, T) -> bool)
  {
    && (forall a: T, b: T :: le(a, b) || le(b, a))
    && (forall a: T, b: T, c: T :: le(a, b) && le(b, c) ==> le(a, c))
  }

  /** Neighbours are in order. */
  predicate Sorted<T>(s: seq<T>, le: (T, T) -> bool)
  {
    forall i :: 0 <= i < |s| - 1 ==> le(s[i], s[i + 1])
  }

  /** `x` placed after the last element of `s` that may precede it (so equal elements keep their order). */
  function Insert<T>(s: seq<T>, x: T, le: (T, T) -> bool): (r: seq<T>)
    ensures |r| == |s| + 1
    ensures multiset(r) == multiset(s) + multiset{x}
    ensures r[|r| - 1] == x || (s != [] && r[|r| - 1] == s[|s| - 1])
  {
    if s == [] then [x]
    else if le(s[|s| - 1], x) then s + [x]
    else
      assert s == s[..|s| - 1] + [s[|s| - 1]];
      Insert(s[..|s| - 1], x, le) + [s[|s| - 1]]
  }

  /** A stable sort: each element is inserted into the sorted prefix before it. */
  function SortBy<T>(xs: seq<T>, le: (T, T) -> bool): (r: seq<T>)
    ensures |r| == |xs|
  {
    if xs == [] then []
    else Insert(SortBy(xs[..|xs| - 1], le), xs[|xs| - 1], le)
  }

  /** Inserting into a sorted sequence keeps it sorted. */
  lemma {:induction false} InsertSorted<T(!new)>(s: seq<T>, x: T, le: (T, T) -> bool)
    requires TotalPreorder(le)
    requires Sorted(s, le)
    ensures Sorted(Insert(s, x, le), le)
    decreases |s|
  {
    if s != [] && !le(s[|s| - 1], x) {
      var init := s[..|s| - 1];
      assert Sorted(init, le) by {
        forall i | 0 <= i < |init| - 1 ensures le(init[i], init[i + 1]) {
          assert init[i] == s[i] && init[i + 1] == s[i + 1];
        }
      }
      InsertSorted(init, x, le);
      var m := Insert(init, x, le);
      assert le(m[|m| - 1], s[|s| - 1]) by {
        if m[|m| - 1] != x {
          assert |s| >= 2 && m[|m| - 1] == s[|s| - 2];
        }
      }
    } else if s != [] {
      var r := s + [x];
      forall i | 0 <= i < |r| - 1 ensures le(r[i], r[i + 1]) {
        if i < |s| - 1 { assert r[i] == s[i] && r[i + 1] == s[i + 1]; }
      }
    }
  }

  /** The result is sorted. */
  lemma {:induction false} SortBySorted<T(!new)>(xs: seq<T>, le: (T, T) -> bool)
    requires TotalPreorder(le)
    ensures Sorted(SortBy(xs, le), le)
    decreases |xs|
  {
    if xs != [] {
      SortBySorted(xs[..|xs| - 1], le);
      InsertSorted(SortBy(xs[..|xs| - 1], le), xs[|xs| - 1], le);
    }
  }

  /** The result is a permutation of the input: nothing dropped, nothing duplicated. */
  lemma {:induction false} SortByPermutes<T>(xs: seq<T>, le: (T, T) -> bool)
    ensures multiset(SortBy(xs, le)) == multiset(xs)
    decreases |xs|
  {
    if xs != [] {
      SortByPermutes(xs[..|xs| - 1], le);
      assert xs == xs[..|xs| - 1] + [xs[|xs| - 1]];
    }
  }

  /** The order a comparator such as `(a, b) => a.index - b.index` induces: by an integer key. */
  function ByKey<T>(key: T -> int): (T, T) -> bool
  {
    (a: T, b: T) => key(a) <= key(b)
  }

  /** Ordering by an integer key is a total preorder. */
  lemma KeyOrderIsTotal<T(!new)>(key: T -> int)
    ensures TotalPreorder(ByKey(key))
  {
  }

  /** Sorting by a key: the keys never decrease along the result, and the result is a permutation of the input. */
  lemma SortByKeyOrders<T(!new)>(xs: seq<T>, key: T -> int)
    ensures forall i, j :: 0 <= i <= j < |xs| ==> key(SortBy(xs, ByKey(key))[i]) <= key(SortBy(xs, ByKey(key))[j])
    ensures multiset(SortBy(xs, ByKey(key))) == multiset(xs)
  {
    KeyOrderIsTotal(key);
    SortBySorted(xs, ByKey(key));
    KeySortedAllPairs(SortBy(xs, ByKey(key)), key);
    SortByPermutes(xs, ByKey(key));
  }

  /** Sorted neighbours by an integer key means the keys never decrease along the whole sequence. */
  lemma {:induction false} KeySortedAllPairs<T>(s: seq<T>, key: T -> int)
    requires Sorted(s, ByKey(key))
    ensures forall i, j :: 0 <= i <= j < |s| ==> key(s[i]) <= key(s[j])
    decreases |s|
  {
    if |s| > 1 {
      var init := s[..|s| - 1];
      assert Sorted(init, ByKey(key)) by {
        forall i | 0 <= i < |init| - 1 ensures key(init[i]) <= key(init[i + 1]) {
          assert init[i] == s[i] && init[i + 1] == s[i + 1];
          assert ByKey(key)(s[i], s[i + 1]);
        }
      }
      KeySortedAllPairs(init, key);
      forall i, j | 0 <= i <= j < |s| ensures key(s[i]) <= key(s[j]) {
        if j < |s| - 1 {
          assert s[i] == init[i] && s[j] == init[j];
        } else if i < j {
          assert key(s[i]) <= key(s[|s| - 2]) by { assert s[i] == init[i] && s[|s| - 2] == init[|s| - 2]; }
          assert ByKey(key)(s[|s| - 2], s[|s| - 1]);
        }
      }
    }
  }

  /** A sequence already in order comes back unchanged. */
  lemma {:induction false} SortByKeepsSorted<T>(xs: seq<T>, le: (T, T) -> bool)
    requires Sorted(xs, le)
    ensures SortBy(xs, le) == xs
    decreases |xs|
  {
    if xs != [] {
      var init := xs[..|xs| - 1];
      assert Sorted(init, le) by {
        forall i | 0 <= i < |init| - 1 ensures le(init[i], init[i + 1]) {
          assert init[i] == xs[i] && init[i + 1] == xs[i + 1];
        }
      }
      SortByKeepsSorted(init, le);
      if init != [] {
        assert le(init[|init| - 1], xs[|xs| - 1]);
      }
      assert xs == init + [xs[|xs| - 1]];
    }
  }

  /** `a` and `b` are tied: each may precede the other. */
  predicate Tied<T>(le: (T, T) -> bool, a: T, b: T)
  {
    le(a, b) && le(b, a)
  }

  /** The elements of `xs` tied with `e`, in their order in `xs`. */
  function Peers<T>(xs: seq<T>, le: (T, T) -> bool, e: T): (r: seq<T>)
    ensures |r| <= |xs|
  {
    if xs == [] then []
    else Peers(xs[..|xs| - 1], le, e) + (if Tied(le, xs[|xs| - 1], e) then [xs[|xs| - 1]] else [])
  }

  /** Inserting `x` puts it after every element already tied with it. */
  lemma {:induction false} InsertPeers<T(!new)>(s: seq<T>, x: T, le: (T, T) -> bool, e: T)
    requires TotalPreorder(le)
    ensures Peers(Insert(s, x, le), le, e) == Peers(s, le, e) + (if Tied(le, x, e) then [x] else [])
    decreases |s|
  {
    if s == [] {
    } else if le(s[|s| - 1], x) {
      assert (s + [x])[..|s|] == s;
    } else {
      var init, last := s[..|s| - 1], s[|s| - 1];
      InsertPeers(init, x, le, e);
      var m := Insert(init, x, le);
      assert (m + [last])[..|m|] == m;
      // `last` and `x` are not tied, so at most one of them is tied with `e`.
      assert !(Tied(le, last, e) && Tied(le, x, e));
    }
  }

  /**
   * The sort is stable: the elements tied with any `e` come out in the order
   * they went in.
   */
  lemma {:induction false} SortByStable<T(!new)>(xs: seq<T>, le: (T, T) -> bool, e: T)
    requires TotalPreorder(le)
    ensures Peers(SortBy(xs, le), le, e) == Peers(xs, le, e)
    decreases |xs|
  {
    if xs != [] {
      SortByStable(xs[..|xs| - 1], le, e);
      InsertPeers(SortBy(xs[..|xs| - 1], le), xs[|xs| - 1], le, e);
    }
  }

  /** Sorted neighbours under a total preorder means every pair, near or far, is in order. */
  lemma {:induction false} SortedAllPairs<T(!new)>(s: seq<T>, le: (T, T) -> bool)
    requires TotalPreorder(le)
    requires Sorted(s, le)
    ensures forall i, j :: 0 <= i <= j < |s| ==> le(s[i], s[j])
    decreases |s|
  {
    if |s| > 1 {
      var init := s[..|s| - 1];
      assert Sorted(init, le) by {
        forall i | 0 <= i < |init| - 1 ensures le(init[i], init[i + 1]) {
          assert init[i] == s[i] && init[i + 1] == s[i + 1];
        }
      }
      SortedAllPairs(init, le);
      forall i, j | 0 <= i <= j < |s| ensures le(s[i], s[j]) {
        if j < |s| - 1 {
          assert s[i] == init[i] && s[j] == init[j];
        } else if i < j {
          assert le(s[i], s[|s| - 2]) by { assert s[i] == init[i] && s[|s| - 2] == init[|s| - 2]; }
        }
      }
    }
  }
}
