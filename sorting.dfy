/**
 * A stable insertion sort by an integer key. It stands for Rust's stable
 * `sort_by_key` (models/team.rs) and for SQL's `ORDER BY` (models/standings.rs).
 */
module Sorting {

  predicate SortedBy<T>(s: seq<T>, key: T -> int) {
    forall i, j :: 0 <= i < j < |s| ==> key(s[i]) <= key(s[j])
  }

  /** Inserts `x` after the last element whose key is at most `x`'s. */
  function InsertBy<T>(s: seq<T>, x: T, key: T -> int): seq<T>
    decreases |s|
  {
    if s == [] || key(s[|s| - 1]) <= key(x) then s + [x]
    else InsertBy(s[..|s| - 1], x, key) + [s[|s| - 1]]
  }

  /** Inserting adds `x` and keeps every other element. */
  lemma {:induction false} InsertByPermutes<T>(s: seq<T>, x: T, key: T -> int)
    ensures multiset(InsertBy(s, x, key)) == multiset(s) + multiset{x}
    decreases |s|
  {
    if s != [] && key(s[|s| - 1]) > key(x) {
      InsertByPermutes(s[..|s| - 1], x, key);
      assert s == s[..|s| - 1] + [s[|s| - 1]];
    }
  }

  /** Inserting into a sorted sequence keeps it sorted. */
  lemma {:induction false} InsertByKeepsSorted<T>(s: seq<T>, x: T, key: T -> int)
    requires SortedBy(s, key)
    ensures SortedBy(InsertBy(s, x, key), key)
    decreases |s|
  {
    if s != [] && key(s[|s| - 1]) > key(x) {
      var init, last := s[..|s| - 1], s[|s| - 1];
      var rest := InsertBy(init, x, key);
      InsertByKeepsSorted(init, x, key);
      InsertByPermutes(init, x, key);
      assert forall e :: e in rest ==> e in init || e == x by {
        forall e | e in rest ensures e in init || e == x {
          assert e in multiset(rest);
        }
      }
      assert forall k :: 0 <= k < |rest| ==> key(rest[k]) <= key(last) by {
        forall k | 0 <= k < |rest| ensures key(rest[k]) <= key(last) {
          assert rest[k] in rest;
        }
      }
    }
  }

  /** `InsertBy` puts `x` right after the last element whose key is at most `x`'s. */
  lemma {:induction false} InsertByAt<T>(s: seq<T>, x: T, key: T -> int, j: nat)
    requires j <= |s|
    requires j == 0 || key(s[j - 1]) <= key(x)
    requires forall k :: j <= k < |s| ==> key(s[k]) > key(x)
    ensures InsertBy(s, x, key) == s[..j] + [x] + s[j..]
    decreases |s|
  {
    if j < |s| {
      var init := s[..|s| - 1];
      InsertByAt(init, x, key, j);
      assert init[..j] == s[..j];
      assert s[j..] == init[j..] + [s[|s| - 1]];
    } else {
      assert s[..j] == s;
    }
  }

  /** Sorts by inserting the elements from left to right: stable, ascending by `key`. */
  function SortBy<T>(s: seq<T>, key: T -> int): seq<T>
    decreases |s|
  {
    if s == [] then []
    else InsertBy(SortBy(s[..|s| - 1], key), s[|s| - 1], key)
  }

  /** Sorting rearranges: the result holds the same elements, as often. */
  lemma {:induction false} SortByPermutes<T>(s: seq<T>, key: T -> int)
    ensures multiset(SortBy(s, key)) == multiset(s)
    ensures |SortBy(s, key)| == |s|
    decreases |s|
  {
    if s != [] {
      SortByPermutes(s[..|s| - 1], key);
      InsertByPermutes(SortBy(s[..|s| - 1], key), s[|s| - 1], key);
      assert s == s[..|s| - 1] + [s[|s| - 1]];
    }
    assert |SortBy(s, key)| == |multiset(SortBy(s, key))|;
  }

  /** The result of `SortBy` is in ascending key order. */
  lemma {:induction false} SortBySorts<T>(s: seq<T>, key: T -> int)
    ensures SortedBy(SortBy(s, key), key)
    decreases |s|
  {
    if s != [] {
      SortBySorts(s[..|s| - 1], key);
      InsertByKeepsSorted(SortBy(s[..|s| - 1], key), s[|s| - 1], key);
    }
  }

  /** Sorting a sorted sequence changes nothing. */
  lemma {:induction false} SortBySorted<T>(s: seq<T>, key: T -> int)
    requires SortedBy(s, key)
    ensures SortBy(s, key) == s
    decreases |s|
  {
    if s != [] {
      var init := s[..|s| - 1];
      assert SortedBy(init, key);
      SortBySorted(init, key);
      assert s == init + [s[|s| - 1]];
    }
  }

  /** The elements of `s` whose key is `k`, in their order in `s`. */
  function WithKey<T>(s: seq<T>, key: T -> int, k: int): seq<T>
    decreases |s|
  {
    if s == [] then []
    else WithKey(s[..|s| - 1], key, k) + (if key(s[|s| - 1]) == k then [s[|s| - 1]] else [])
  }

  /** Inserting `x` puts it after every element with the same key. */
  lemma {:induction false} InsertByWithKey<T>(s: seq<T>, x: T, key: T -> int, k: int)
    ensures WithKey(InsertBy(s, x, key), key, k) == WithKey(s, key, k) + (if key(x) == k then [x] else [])
    decreases |s|
  {
    if s == [] || key(s[|s| - 1]) <= key(x) {
      assert (s + [x])[..|s|] == s;
    } else {
      var init, last := s[..|s| - 1], s[|s| - 1];
      var rest := InsertBy(init, x, key);
      InsertByWithKey(init, x, key, k);
      assert (rest + [last])[..|rest|] == rest;
    }
  }

  /**
   * The sort is stable: for every key, the elements with that key come out in
   * the order they went in.
   */
  lemma {:induction false} SortByStable<T>(s: seq<T>, key: T -> int, k: int)
    ensures WithKey(SortBy(s, key), key, k) == WithKey(s, key, k)
    decreases |s|
  {
    if s != [] {
      var init := s[..|s| - 1];
      SortByStable(init, key, k);
      InsertByWithKey(SortBy(init, key), s[|s| - 1], key, k);
    }
  }

  function Map<T, U>(f: T -> U, s: seq<T>): (r: seq<U>)
    ensures |r| == |s| && forall i :: 0 <= i < |s| ==> r[i] == f(s[i])
  {
    seq(|s|, i requires 0 <= i < |s| => f(s[i]))
  }

  /** Rewriting elements in a way that keeps their keys commutes with inserting. */
  lemma {:induction false} InsertByMap<T, U>(s: seq<T>, x: T, key: T -> int, f: T -> U, key': U -> int)
    requires forall e :: key'(f(e)) == key(e)
    ensures InsertBy(Map(f, s), f(x), key') == Map(f, InsertBy(s, x, key))
    decreases |s|
  {
    if s != [] && key(s[|s| - 1]) > key(x) {
      var init := s[..|s| - 1];
      assert Map(f, s)[..|s| - 1] == Map(f, init);
      InsertByMap(init, x, key, f, key');
      assert Map(f, InsertBy(init, x, key) + [s[|s| - 1]]) == Map(f, InsertBy(init, x, key)) + [f(s[|s| - 1])];
    } else {
      assert Map(f, s + [x]) == Map(f, s) + [f(x)];
    }
  }

  /** Rewriting elements in a way that keeps their keys commutes with sorting. */
  lemma {:induction false} SortByMap<T, U>(s: seq<T>, key: T -> int, f: T -> U, key': U -> int)
    requires forall e :: key'(f(e)) == key(e)
    ensures SortBy(Map(f, s), key') == Map(f, SortBy(s, key))
    decreases |s|
  {
    if s != [] {
      var init := s[..|s| - 1];
      assert Map(f, s)[..|s| - 1] == Map(f, init);
      SortByMap(init, key, f, key');
      InsertByMap(SortBy(init, key), s[|s| - 1], key, f, key');
    }
  }
}
