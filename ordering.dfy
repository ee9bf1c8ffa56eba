/**
 * The filter / order-by / limit pipeline shared by every query of the stores.
 * An ORDER BY clause is a lexicographic sort key; rows that agree on the
 * whole key keep their insertion order (SQLite leaves their order open).
 */
module Ordering {

  /** A two-column ORDER BY key, both columns ascending. */
  datatype Key = Key(major: int, minor: int)

  predicate KeyLe(a: Key, b: Key) {
    a.major < b.major || (a.major == b.major && a.minor <= b.minor)
  }

  predicate SortedBy<T>(s: seq<T>, key: T -> Key) {
    forall i, j :: 0 <= i < j < |s| ==> KeyLe(key(s[i]), key(s[j]))
  }

  /** The rows of `s` that satisfy the WHERE clause `p`, in their original order. */
  function Filter<T(==,!new)>(s: seq<T>, p: T -> bool): (r: seq<T>)
    ensures |r| <= |s|
    ensures forall i :: 0 <= i < |r| ==> p(r[i])
    ensures forall x :: x in r <==> x in s && p(x)
  {
    if |s| == 0 then []
    else if p(s[0]) then [s[0]] + Filter(s[1..], p)
    else Filter(s[1..], p)
  }

  lemma {:induction false} FilterCount<T(!new)>(s: seq<T>, p: T -> bool)
    ensures multiset(Filter(s, p)) <= multiset(s)
    ensures forall x :: p(x) ==> multiset(Filter(s, p))[x] == multiset(s)[x]
  {
    if |s| > 0 {
      FilterCount(s[1..], p);
      assert s == [s[0]] + s[1..];
    }
  }

  function Insert<T(==)>(x: T, s: seq<T>, key: T -> Key): (r: seq<T>)
    requires SortedBy(s, key)
    ensures |r| == |s| + 1
    ensures SortedBy(r, key)
    ensures multiset(r) == multiset(s) + multiset{x}
  {
    if |s| == 0 then [x]
    else if KeyLe(key(x), key(s[0])) then [x] + s
    else
      var rest := Insert(x, s[1..], key);
      assert s == [s[0]] + s[1..];
      assert forall k :: 0 <= k < |rest| ==> KeyLe(key(s[0]), key(rest[k])) by {
        forall k | 0 <= k < |rest|
          ensures KeyLe(key(s[0]), key(rest[k]))
        {
          assert rest[k] in multiset(rest);
          assert rest[k] == x || rest[k] in multiset(s[1..]);
        }
      }
      [s[0]] + rest
  }

  /** ORDER BY `key`: a stable insertion sort. */
  function SortBy<T(==)>(s: seq<T>, key: T -> Key): (r: seq<T>)
    ensures |r| == |s|
    ensures SortedBy(r, key)
    ensures multiset(r) == multiset(s)
  {
    if |s| == 0 then []
    else
      assert s == [s[0]] + s[1..];
      Insert(s[0], SortBy(s[1..], key), key)
  }

  /** LIMIT `n`; SQLite reads a negative limit as no limit at all. */
  function Limit<T>(s: seq<T>, n: int): (r: seq<T>)
    ensures r <= s
    ensures |r| == if n < 0 || |s| <= n then |s| else n
  {
    if n < 0 || |s| <= n then s else s[..n]
  }

  /** SELECT … WHERE `p` ORDER BY `key` LIMIT `n`. */
  function Select<T(==,!new)>(s: seq<T>, p: T -> bool, key: T -> Key, n: int): seq<T> {
    Limit(SortBy(Filter(s, p), key), n)
  }

  /**
   * What a query promises about the rows it returns: every one satisfies the
   * WHERE clause and is stored, they come in key order, and there are as many
   * as the limit allows.
   */
  lemma {:induction false} SelectSound<T(!new)>(s: seq<T>, p: T -> bool, key: T -> Key, n: int)
    ensures var r := Select(s, p, key, n);
      && (forall i :: 0 <= i < |r| ==> p(r[i]) && r[i] in s)
      && SortedBy(r, key)
      && |r| == (if n < 0 || |Filter(s, p)| <= n then |Filter(s, p)| else n)
  {
    var f := Filter(s, p);
    var sorted := SortBy(f, key);
    var r := Select(s, p, key, n);
    forall i | 0 <= i < |r|
      ensures p(r[i]) && r[i] in s
    {
      assert r[i] == sorted[i];
      assert sorted[i] in multiset(f);
    }
    assert SortedBy(r, key) by {
      forall i, j | 0 <= i < j < |r|
        ensures KeyLe(key(r[i]), key(r[j]))
      {
        assert r[i] == sorted[i] && r[j] == sorted[j];
      }
    }
  }

  /**
   * What a query promises in full, stated without computing it: `r` holds
   * stored rows that satisfy the WHERE clause `p`, in `key` order, none more
   * often than it is stored; it is as long as the limit `n` allows; when the
   * limit does not cut, every matching row is returned as often as it is
   * stored; and when it cuts, every returned row sorts no later than any
   * matching row that was left out.
   */
  ghost predicate Answers<T(!new)>(r: seq<T>, s: seq<T>, p: T -> bool, key: T -> Key, n: int) {
    && (forall i :: 0 <= i < |r| ==> p(r[i]) && r[i] in s)
    && SortedBy(r, key)
    && multiset(r) <= multiset(s)
    && |r| == (if n < 0 || |Filter(s, p)| <= n then |Filter(s, p)| else n)
    && ((n < 0 || |Filter(s, p)| <= n) ==> forall x :: p(x) ==> multiset(r)[x] == multiset(s)[x])
    && (forall x :: p(x) && multiset(r)[x] < multiset(s)[x] ==>
          forall i :: 0 <= i < |r| ==> KeyLe(key(r[i]), key(x)))
  }

  lemma {:induction false} SelectSpec<T(!new)>(s: seq<T>, p: T -> bool, key: T -> Key, n: int)
    ensures Answers(Select(s, p, key, n), s, p, key, n)
  {
    SelectSound(s, p, key, n);
    SelectCounts(s, p, key, n);
    SelectCut(s, p, key, n);
  }

  /** The page is the sorted matches up to the limit, and the rest of them after it. */
  lemma {:induction false} SelectSplit<T(!new)>(s: seq<T>, p: T -> bool, key: T -> Key, n: int)
    ensures var sorted := SortBy(Filter(s, p), key);
      var r := Select(s, p, key, n);
      && |r| <= |sorted|
      && multiset(sorted) == multiset(r) + multiset(sorted[|r|..])
      && multiset(sorted) == multiset(Filter(s, p))
  {
    var sorted := SortBy(Filter(s, p), key);
    var r := Select(s, p, key, n);
    assert sorted == r + sorted[|r|..];
  }

  lemma {:induction false} SelectCounts<T(!new)>(s: seq<T>, p: T -> bool, key: T -> Key, n: int)
    ensures var r := Select(s, p, key, n);
      && multiset(r) <= multiset(s)
      && ((n < 0 || |Filter(s, p)| <= n) ==> forall x :: p(x) ==> multiset(r)[x] == multiset(s)[x])
  {
    FilterCount(s, p);
    SelectSplit(s, p, key, n);
  }

  lemma {:induction false} SelectCut<T(!new)>(s: seq<T>, p: T -> bool, key: T -> Key, n: int)
    ensures var r := Select(s, p, key, n);
      forall x :: p(x) && multiset(r)[x] < multiset(s)[x] ==>
        forall i :: 0 <= i < |r| ==> KeyLe(key(r[i]), key(x))
  {
    var sorted := SortBy(Filter(s, p), key);
    var r := Select(s, p, key, n);
    FilterCount(s, p);
    SelectSplit(s, p, key, n);
    LimitKeepsSmallest(s, p, key, n);
    forall x | p(x) && multiset(r)[x] < multiset(s)[x]
      ensures forall i :: 0 <= i < |r| ==> KeyLe(key(r[i]), key(x))
    {
      var rest := sorted[|r|..];
      assert x in multiset(rest);
      var j :| 0 <= j < |rest| && rest[j] == x;
      assert sorted[|r| + j] == x;
    }
  }

  /** Rows cut off by the limit sort no earlier than any row that was kept. */
  lemma LimitKeepsSmallest<T(!new)>(s: seq<T>, p: T -> bool, key: T -> Key, n: int)
    ensures var sorted := SortBy(Filter(s, p), key);
      var r := Select(s, p, key, n);
      forall i, j :: 0 <= i < |r| <= j < |sorted| ==> KeyLe(key(r[i]), key(sorted[j]))
  {
  }
}
