/**
  The two query shapes the GET handlers send to the store:
  `.eq(column, value)` (a filter) and `.order("created_at", { ascending: false })`
  (newest first), over rows that carry an ordered creation key.
 */
module Listing {

  /** The rows of `s` satisfying `p`, in their original order. */
  function Filter<T(!new)>(s: seq<T>, p: T -> bool): (r: seq<T>)
    ensures |r| <= |s|
    ensures forall x :: x in r <==> x in s && p(x)
    ensures forall k :: 0 <= k < |r| ==> p(r[k])
  {
    if s == [] then [] else (if p(s[0]) then [s[0]] else []) + Filter(s[1..], p)
  }

  /** Filtering a concatenation filters each part. */
  lemma {:induction false} FilterConcat<T(!new)>(a: seq<T>, b: seq<T>, p: T -> bool)
    ensures Filter(a + b, p) == Filter(a, p) + Filter(b, p)
  {
    if a == [] {
      assert a + b == b;
    } else {
      assert (a + b)[0] == a[0];
      assert (a + b)[1..] == a[1..] + b;
      FilterConcat(a[1..], b, p);
    }
  }

  /** Filter keeps exactly the matching copies of each row. */
  lemma {:induction false} FilterMultiset<T(!new)>(s: seq<T>, p: T -> bool, x: T)
    ensures multiset(Filter(s, p))[x] == if p(x) then multiset(s)[x] else 0
  {
    if s != [] {
      FilterMultiset(s[1..], p, x);
      assert s == [s[0]] + s[1..];
    }
  }

  /** Every row's key is at least that of every row after it. */
  ghost predicate NewestFirst<T>(s: seq<T>, key: T -> int) {
    forall i, j :: 0 <= i < j < |s| ==> key(s[i]) >= key(s[j])
  }

  /** Inserts `x` into a newest-first sequence before the first row that is not newer. */
  function InsertByKey<T>(x: T, s: seq<T>, key: T -> int): (r: seq<T>)
    requires NewestFirst(s, key)
    ensures NewestFirst(r, key)
    ensures multiset(r) == multiset(s) + multiset{x}
  {
    if s == [] || key(x) >= key(s[0]) then [x] + s
    else
      var rest := InsertByKey(x, s[1..], key);
      assert s == [s[0]] + s[1..];
      forall y | y in rest ensures key(y) <= key(s[0]) {
        assert y in multiset(rest);
        if y != x {
          assert y in multiset(s[1..]);
          var j :| 0 <= j < |s[1..]| && s[1..][j] == y;
          assert s[j + 1] == y;
        }
      }
      PrependNewest(s[0], rest, key);
      [s[0]] + rest
  }

  /** A row at least as new as every row of a newest-first sequence can go in front of it. */
  lemma PrependNewest<T>(h: T, t: seq<T>, key: T -> int)
    requires NewestFirst(t, key)
    requires forall y :: y in t ==> key(y) <= key(h)
    ensures NewestFirst([h] + t, key)
  {
    var r := [h] + t;
    forall i, j | 0 <= i < j < |r| ensures key(r[i]) >= key(r[j]) {
      assert r[j] == t[j - 1];
      if i > 0 {
        assert r[i] == t[i - 1];
      }
    }
  }

  /** Orders rows by descending key; rows with equal keys keep their relative order. */
  function SortNewestFirst<T>(s: seq<T>, key: T -> int): (r: seq<T>)
    ensures NewestFirst(r, key)
    ensures multiset(r) == multiset(s)
  {
    if s == [] then []
    else
      assert s == [s[0]] + s[1..];
      InsertByKey(s[0], SortNewestFirst(s[1..], key), key)
  }

  /** The newest-first listing of the rows of `s` that satisfy `p`. */
  function Query<T(!new)>(s: seq<T>, p: T -> bool, key: T -> int): (r: seq<T>)
    ensures NewestFirst(r, key)
    ensures forall x :: x in r <==> x in s && p(x)
    ensures forall x :: multiset(r)[x] == if p(x) then multiset(s)[x] else 0
  {
    var f := Filter(s, p);
    var r := SortNewestFirst(f, key);
    forall x ensures multiset(r)[x] == if p(x) then multiset(s)[x] else 0 {
      FilterMultiset(s, p, x);
    }
    r
  }

  /**
    When a newly appended row is strictly newer than every stored row and matches the
    filter, it heads the listing and the rest is the listing from before.
   */
  lemma {:induction false} QueryAfterAppend<T(!new)>(s: seq<T>, x: T, p: T -> bool, key: T -> int)
    requires p(x)
    requires forall k :: 0 <= k < |s| ==> key(s[k]) < key(x)
    ensures Query(s + [x], p, key) == [x] + Query(s, p, key)
  {
    FilterConcat(s, [x], p);
    assert Filter([x], p) == [x];
    var f := Filter(s, p);
    assert forall y :: y in f ==> key(y) < key(x);
    SortAppendNewest(f, x, key);
  }

  lemma {:induction false} SortAppendNewest<T>(s: seq<T>, x: T, key: T -> int)
    requires forall y :: y in s ==> key(y) < key(x)
    ensures SortNewestFirst(s + [x], key) == [x] + SortNewestFirst(s, key)
  {
    if s == [] {
      assert [] + [x] == [x];
    } else {
      var t := s + [x];
      assert t[0] == s[0] && t[1..] == s[1..] + [x];
      SortAppendNewest(s[1..], x, key);
      var rest := SortNewestFirst(s[1..], key);
      assert key(s[0]) < key(x);
      assert InsertByKey(s[0], [x] + rest, key) == [x] + InsertByKey(s[0], rest, key);
    }
  }

  /** A filter that no new row satisfies leaves the listing unchanged. */
  lemma {:induction false} QueryAfterAppendOther<T(!new)>(s: seq<T>, x: T, p: T -> bool, key: T -> int)
    requires !p(x)
    ensures Query(s + [x], p, key) == Query(s, p, key)
  {
    FilterConcat(s, [x], p);
    assert Filter(s, p) + [] == Filter(s, p);
  }
}
