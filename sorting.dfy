/** Python's sorted(..., key=k, reverse=True) and list.sort with the same
    arguments, on a real-valued key, written as an insertion sort that is
    stable like Python's: an element that comes earlier in the input stays
    earlier among elements of equal key. */
module Sorting {
  import opened Counting

  predicate SortedDesc<T>(s: seq<T>, key: T -> real)
  {
    forall i, j :: 0 <= i < j < |s| ==> key(s[i]) >= key(s[j])
  }

  /** Puts x in front of the first element whose key is not above its own. */
  function Insert<T>(x: T, s: seq<T>, key: T -> real): (r: seq<T>)
    requires SortedDesc(s, key)
    ensures SortedDesc(r, key)
    ensures |r| == |s| + 1
    ensures r[0] == x || (s != [] && r[0] == s[0])
  {
    if s == [] || key(x) >= key(s[0]) then
      PrependSorted(x, s, key);
      [x] + s
    else
      SortedTail(s, key);
      var tail := Insert(x, s[1..], key);
      PrependSorted(s[0], tail, key);
      [s[0]] + tail
  }

  /** Inserting adds x and loses nothing. */
  lemma {:induction false} InsertPermutes<T>(x: T, s: seq<T>, key: T -> real)
    requires SortedDesc(s, key)
    ensures multiset(Insert(x, s, key)) == multiset(s) + multiset{x}
  {
    if s != [] && key(x) < key(s[0]) {
      SortedTail(s, key);
      InsertPermutes(x, s[1..], key);
      assert s == [s[0]] + s[1..];
    }
  }

  lemma SortedTail<T>(s: seq<T>, key: T -> real)
    requires SortedDesc(s, key) && s != []
    ensures SortedDesc(s[1..], key)
  {
    forall i, j | 0 <= i < j < |s| - 1 ensures key(s[1..][i]) >= key(s[1..][j]) {
      assert s[1..][i] == s[i + 1] && s[1..][j] == s[j + 1];
    }
  }

  /** An element whose key is not below the head of a sorted sequence can go in front. */
  lemma PrependSorted<T>(y: T, t: seq<T>, key: T -> real)
    requires SortedDesc(t, key) && (t == [] || key(y) >= key(t[0]))
    ensures SortedDesc([y] + t, key)
  {
    var r := [y] + t;
    forall i, j | 0 <= i < j < |r| ensures key(r[i]) >= key(r[j]) {
      if i == 0 {
        assert r[j] == t[j - 1];
        assert key(t[0]) >= key(t[j - 1]) || j == 1;
      } else {
        assert r[i] == t[i - 1] && r[j] == t[j - 1];
      }
    }
  }

  function SortDesc<T>(s: seq<T>, key: T -> real): (r: seq<T>)
    ensures SortedDesc(r, key)
    ensures multiset(r) == multiset(s)
    ensures |r| == |s|
  {
    if s == [] then []
    else
      assert s == [s[0]] + s[1..];
      InsertPermutes(s[0], SortDesc(s[1..], key), key);
      Insert(s[0], SortDesc(s[1..], key), key)
  }

  /** Selecting from a sequence with one element in front. */
  lemma {:induction false} SelectCons<T, C>(y: T, s: seq<T>, key: T -> C, c: C)
    ensures Select([y] + s, key, c) == (if key(y) == c then [y] else []) + Select(s, key, c)
  {
    if s != [] {
      var init, last := s[..|s| - 1], s[|s| - 1];
      assert ([y] + s)[..|s|] == [y] + init;
      SelectCons(y, init, key, c);
    } else {
      assert [y] + s == [] + [y];
    }
  }

  /** Inserting x puts it in front of every element of equal key and
      changes nothing else among the elements of any one key. */
  lemma {:induction false} InsertKeepsOrder<T>(x: T, s: seq<T>, key: T -> real, v: real)
    requires SortedDesc(s, key)
    ensures Select(Insert(x, s, key), key, v) == (if key(x) == v then [x] else []) + Select(s, key, v)
    decreases |s|, 1
  {
    if s == [] || key(x) >= key(s[0]) {
      SelectCons(x, s, key, v);
    } else {
      InsertBehind(x, s, key, v);
    }
  }

  /** x goes behind the first element, whose key is above its own. */
  lemma {:induction false} InsertBehind<T>(x: T, s: seq<T>, key: T -> real, v: real)
    requires SortedDesc(s, key) && s != [] && key(x) < key(s[0])
    ensures Select(Insert(x, s, key), key, v) == (if key(x) == v then [x] else []) + Select(s, key, v)
    decreases |s|, 0
  {
    var tail := Insert(x, s[1..], key);
    InsertKeepsOrder(x, s[1..], key, v);
    assert Insert(x, s, key) == [s[0]] + tail;
    assert s == [s[0]] + s[1..];
    SelectBehind(s[0], x, tail, s[1..], key, v);
  }

  /** When tail selects x (if it has key v) ahead of what rest selects, then
      putting y, whose key differs from x's, in front of both keeps that. */
  lemma SelectBehind<T>(y: T, x: T, tail: seq<T>, rest: seq<T>, key: T -> real, v: real)
    requires key(x) != key(y)
    requires Select(tail, key, v) == (if key(x) == v then [x] else []) + Select(rest, key, v)
    ensures Select([y] + tail, key, v) == (if key(x) == v then [x] else []) + Select([y] + rest, key, v)
  {
    SelectCons(y, tail, key, v);
    SelectCons(y, rest, key, v);
  }

  /** The sort is stable: the elements of any one key keep their input order. */
  lemma {:induction false} SortDescIsStable<T>(s: seq<T>, key: T -> real, v: real)
    ensures Select(SortDesc(s, key), key, v) == Select(s, key, v)
  {
    if s != [] {
      SortDescIsStable(s[1..], key, v);
      InsertKeepsOrder(s[0], SortDesc(s[1..], key), key, v);
      SelectCons(s[0], s[1..], key, v);
      assert s == [s[0]] + s[1..];
    }
  }

  /** The first n elements, or all of them when there are fewer (s[:n]). */
  function Take<T>(s: seq<T>, n: nat): (r: seq<T>)
    ensures |r| == if |s| <= n then |s| else n
    ensures r == s[..|r|]
  {
    if |s| <= n then s else s[..n]
  }
}
