/** The descending sort of the ranking, `Array.prototype.sort` with the
    comparator `(a, b) => key(b) - key(a)` (stable in the engines the code
    runs on), also used for the leaderboard's `$sort` stage with `-1`. It is
    insertion sort, each element placed after every element whose key is at
    least its own, so elements with equal keys keep their input order. */
module Sorting {

  /** Places `x` into `r` after the last element whose key is at least `key(x)`. */
  function Insert<T>(r: seq<T>, x: T, key: T -> int): (o: seq<T>)
    ensures |o| == |r| + 1
    ensures multiset(o) == multiset(r) + multiset{x}
  {
    if r == [] then [x]
    else if key(r[|r| - 1]) >= key(x) then r + [x]
    else
      var last := r[|r| - 1];
      assert r == r[..|r| - 1] + [last];
      Insert(r[..|r| - 1], x, key) + [last]
  }

  /** The sorted result: `s` ordered by non-increasing key, ties in input order. */
  function SortDesc<T>(s: seq<T>, key: T -> int): (o: seq<T>)
    ensures |o| == |s|
    ensures multiset(o) == multiset(s)
  {
    if s == [] then []
    else
      assert s == s[..|s| - 1] + [s[|s| - 1]];
      Insert(SortDesc(s[..|s| - 1], key), s[|s| - 1], key)
  }

  ghost predicate SortedDesc<T>(s: seq<T>, key: T -> int) {
    forall i, j :: 0 <= i < j < |s| ==> key(s[i]) >= key(s[j])
  }

  /** The elements of `s` whose key is `c`, in the order they occur in `s`. */
  function WithKey<T>(s: seq<T>, key: T -> int, c: int): (o: seq<T>)
    ensures |o| <= |s|
  {
    if s == [] then []
    else WithKey(s[..|s| - 1], key, c) + (if key(s[|s| - 1]) == c then [s[|s| - 1]] else [])
  }

  lemma {:induction false} WithKeyAppend<T>(s: seq<T>, x: T, key: T -> int, c: int)
    ensures WithKey(s + [x], key, c) == WithKey(s, key, c) + (if key(x) == c then [x] else [])
  {
    assert (s + [x])[..|s|] == s;
  }

  lemma {:induction false} InsertBounded<T>(r: seq<T>, x: T, key: T -> int, b: int)
    requires forall i :: 0 <= i < |r| ==> key(r[i]) >= b
    requires key(x) >= b
    ensures forall i :: 0 <= i < |Insert(r, x, key)| ==> key(Insert(r, x, key)[i]) >= b
  {
    if r != [] && key(r[|r| - 1]) < key(x) {
      InsertBounded(r[..|r| - 1], x, key, b);
    }
  }

  lemma {:induction false} InsertSorted<T>(r: seq<T>, x: T, key: T -> int)
    requires SortedDesc(r, key)
    ensures SortedDesc(Insert(r, x, key), key)
  {
    if r != [] && key(r[|r| - 1]) < key(x) {
      var p, last := r[..|r| - 1], r[|r| - 1];
      InsertSorted(p, x, key);
      InsertBounded(p, x, key, key(last));
      var o := Insert(p, x, key);
      assert Insert(r, x, key) == o + [last];
      forall i, j | 0 <= i < j < |o| + 1
        ensures key((o + [last])[i]) >= key((o + [last])[j])
      {
        if j == |o| {
          assert (o + [last])[i] == o[i];
        } else {
          assert (o + [last])[i] == o[i] && (o + [last])[j] == o[j];
        }
      }
    }
  }

  lemma {:induction false} InsertWithKey<T>(r: seq<T>, x: T, key: T -> int, c: int)
    ensures WithKey(Insert(r, x, key), key, c) == WithKey(r, key, c) + (if key(x) == c then [x] else [])
  {
    if r == [] {
      assert Insert(r, x, key) == [] + [x];
      WithKeyAppend([], x, key, c);
    } else if key(r[|r| - 1]) >= key(x) {
      WithKeyAppend(r, x, key, c);
    } else {
      var p, last := r[..|r| - 1], r[|r| - 1];
      assert r == p + [last];
      var o := Insert(p, x, key);
      assert Insert(r, x, key) == o + [last];
      InsertWithKey(p, x, key, c);
      WithKeyAppend(o, last, key, c);
      WithKeyAppend(p, last, key, c);
      if key(x) == c {
        assert key(last) != c;
        assert WithKey(r, key, c) == WithKey(p, key, c);
      } else if key(last) == c {
        assert WithKey(o, key, c) == WithKey(p, key, c);
      }
    }
  }

  /** The sorted result is ordered by non-increasing key. */
  lemma {:induction false} SortDescSorted<T>(s: seq<T>, key: T -> int)
    ensures SortedDesc(SortDesc(s, key), key)
  {
    if s != [] {
      SortDescSorted(s[..|s| - 1], key);
      InsertSorted(SortDesc(s[..|s| - 1], key), s[|s| - 1], key);
    }
  }

  /** Stability: for every key value, the elements carrying it come out in
      the order they went in. */
  lemma {:induction false} SortDescStable<T>(s: seq<T>, key: T -> int, c: int)
    ensures WithKey(SortDesc(s, key), key, c) == WithKey(s, key, c)
  {
    if s != [] {
      var p := s[..|s| - 1];
      SortDescStable(p, key, c);
      SortDescSorted(p, key);
      InsertWithKey(SortDesc(p, key), s[|s| - 1], key, c);
    }
  }

  /** `s.map(f)` */
  function Project<T, U>(s: seq<T>, f: T -> U): (o: seq<U>)
    ensures |o| == |s|
    ensures forall i :: 0 <= i < |s| ==> o[i] == f(s[i])
  {
    seq(|s|, i requires 0 <= i < |s| => f(s[i]))
  }

  lemma ProjectAppend<T, U>(a: seq<T>, b: seq<T>, f: T -> U)
    ensures Project(a + b, f) == Project(a, f) + Project(b, f)
  {
    assert forall i :: 0 <= i < |a + b| ==> Project(a + b, f)[i] == (Project(a, f) + Project(b, f))[i];
  }

  lemma {:induction false} InsertProject<T, U>(r: seq<T>, x: T, key: T -> int, f: T -> U)
    ensures multiset(Project(Insert(r, x, key), f)) == multiset(Project(r, f)) + multiset{f(x)}
  {
    if r == [] {
      assert Project([x], f) == [f(x)];
    } else if key(r[|r| - 1]) >= key(x) {
      ProjectAppend(r, [x], f);
      assert Project([x], f) == [f(x)];
    } else {
      var p, last := r[..|r| - 1], r[|r| - 1];
      assert r == p + [last];
      InsertProject(p, x, key, f);
      ProjectAppend(Insert(p, x, key), [last], f);
      ProjectAppend(p, [last], f);
      assert Project([last], f) == [f(last)];
    }
  }

  /** Sorting rearranges the elements only: any projection of them, such as
      an identifier field, has the same multiset before and after. */
  lemma {:induction false} SortDescProject<T, U>(s: seq<T>, key: T -> int, f: T -> U)
    ensures multiset(Project(SortDesc(s, key), f)) == multiset(Project(s, f))
  {
    if s != [] {
      var p, x := s[..|s| - 1], s[|s| - 1];
      assert s == p + [x];
      SortDescProject(p, key, f);
      InsertProject(SortDesc(p, key), x, key, f);
      ProjectAppend(p, [x], f);
      assert Project([x], f) == [f(x)];
    }
  }
}
