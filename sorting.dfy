/**
 * Python's `sorted(xs, key=k)` and `xs.sort(key=k)`: a stable sort by a key
 * ordering, written as an insertion sort. `le(x, y)` stands for
 * `k(x) <= k(y)`.
 */
module Sorting {

  ghost predicate TotalPreorder<T(!new)>(le: (T, T) -> bool) {
    && (forall a, b :: le(a, b) || le(b, a))
    && (forall a, b, c :: le(a, b) && le(b, c) ==> le(a, c))
  }

  ghost predicate SortedBy<T>(s: seq<T>, le: (T, T) -> bool) {
    forall i, j :: 0 <= i < j < |s| ==> le(s[i], s[j])
  }

  /** Puts `x` before the first element it does not sort after. */
  function Insert<T>(x: T, s: seq<T>, le: (T, T) -> bool): (r: seq<T>)
    ensures multiset(r) == multiset(s) + multiset{x}
  {
    if s == [] || le(x, s[0]) then [x] + s
    else
      assert s == [s[0]] + s[1..];
      [s[0]] + Insert(x, s[1..], le)
  }

  function SortBy<T>(s: seq<T>, le: (T, T) -> bool): (r: seq<T>)
    ensures multiset(r) == multiset(s)
  {
    if s == [] then []
    else
      assert s == [s[0]] + s[1..];
      Insert(s[0], SortBy(s[1..], le), le)
  }

  /** The elements of `s` whose key equals `k`'s key, in their order in `s`. */
  ghost function Ties<T>(s: seq<T>, k: T, le: (T, T) -> bool): seq<T> {
    if s == [] then []
    else (if le(s[0], k) && le(k, s[0]) then [s[0]] else []) + Ties(s[1..], k, le)
  }

  lemma {:induction false} InsertSorted<T(!new)>(x: T, s: seq<T>, le: (T, T) -> bool)
    requires TotalPreorder(le)
    requires SortedBy(s, le)
    ensures SortedBy(Insert(x, s, le), le)
  {
    if s == [] || le(x, s[0]) {
    } else {
      InsertSorted(x, s[1..], le);
      var r := Insert(x, s[1..], le);
      assert multiset(r) == multiset(s[1..]) + multiset{x};
      forall j | 0 <= j < |r|
        ensures le(s[0], r[j])
      {
        assert r[j] in multiset(r);
        if r[j] != x {
          assert r[j] in multiset(s[1..]);
          var i :| 0 <= i < |s[1..]| && s[1..][i] == r[j];
          assert s[1..][i] == s[i + 1];
        }
      }
    }
  }

  /** The result is ordered by the key. */
  lemma {:induction false} SortBySorted<T(!new)>(s: seq<T>, le: (T, T) -> bool)
    requires TotalPreorder(le)
    ensures SortedBy(SortBy(s, le), le)
  {
    if s != [] {
      SortBySorted(s[1..], le);
      InsertSorted(s[0], SortBy(s[1..], le), le);
    }
  }

  lemma {:induction false} TiesOfInsert<T(!new)>(x: T, s: seq<T>, k: T, le: (T, T) -> bool)
    requires TotalPreorder(le)
    ensures Ties(Insert(x, s, le), k, le)
         == (if le(x, k) && le(k, x) then [x] else []) + Ties(s, k, le)
  {
    if s == [] || le(x, s[0]) {
      assert ([x] + s)[1..] == s;
    } else {
      var r := Insert(x, s[1..], le);
      TiesOfInsert(x, s[1..], k, le);
      assert ([s[0]] + r)[1..] == r;
      // x and s[0] cannot both tie with k, since x does not sort before s[0]
    }
  }

  /** The sort is stable: elements with equal keys keep their input order. */
  lemma {:induction false} SortByStable<T(!new)>(s: seq<T>, k: T, le: (T, T) -> bool)
    requires TotalPreorder(le)
    ensures Ties(SortBy(s, le), k, le) == Ties(s, k, le)
  {
    if s != [] {
      SortByStable(s[1..], k, le);
      TiesOfInsert(s[0], SortBy(s[1..], le), k, le);
    }
  }

  lemma {:induction false} TiesAppend<T>(a: seq<T>, b: seq<T>, k: T, le: (T, T) -> bool)
    ensures Ties(a + b, k, le) == Ties(a, k, le) + Ties(b, k, le)
  {
    if a != [] {
      assert (a + b)[1..] == a[1..] + b;
      TiesAppend(a[1..], b, k, le);
    } else {
      assert a + b == b;
    }
  }
}
