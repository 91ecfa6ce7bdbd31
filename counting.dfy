/** Grouping a sequence by a key, as the reports do when they bump one
    dictionary counter per element or push each element into one of
    several buckets: the elements of one class in their original order,
    how many there are, and the fact that the classes of a partition
    account for every element exactly once. */
module Counting {

  /** The elements whose key is c, in their original order. */
  function Select<T, C(==)>(s: seq<T>, key: T -> C, c: C): (r: seq<T>)
    ensures |r| <= |s|
    ensures forall i :: 0 <= i < |r| ==> key(r[i]) == c
  {
    if |s| == 0 then []
    else
      var init := Select(s[..|s| - 1], key, c);
      init + (if key(s[|s| - 1]) == c then [s[|s| - 1]] else [])
  }

  /** Selecting from a sequence extended by one element. */
  lemma SelectSnoc<T, C>(s: seq<T>, x: T, key: T -> C, c: C)
    ensures Select(s + [x], key, c) == Select(s, key, c) + (if key(x) == c then [x] else [])
  {
    assert (s + [x])[..|s|] == s;
  }

  /** Selecting from a sequence with one more element in front. */
  lemma {:induction false} SelectCons<T, C>(x: T, s: seq<T>, key: T -> C, c: C)
    ensures Select([x] + s, key, c) == (if key(x) == c then [x] else []) + Select(s, key, c)
  {
    if |s| > 0 {
      var init := s[..|s| - 1];
      SelectCons(x, init, key, c);
      assert ([x] + s)[..|s|] == [x] + init;
      assert ([x] + s)[|s|] == s[|s| - 1];
    }
  }

  /** An element is selected exactly when it occurs with key c. */
  lemma {:induction false} SelectMembers<T, C>(s: seq<T>, key: T -> C, c: C, x: T)
    ensures x in Select(s, key, c) <==> x in s && key(x) == c
  {
    if |s| > 0 {
      var init := s[..|s| - 1];
      SelectMembers(init, key, c, x);
      assert s == init + [s[|s| - 1]];
    }
  }

  /** Every element has key c exactly when all of s is selected. */
  lemma {:induction false} SelectAll<T, C>(s: seq<T>, key: T -> C, c: C)
    ensures |Select(s, key, c)| == |s| <==> forall i :: 0 <= i < |s| ==> key(s[i]) == c
  {
    if |s| > 0 {
      var init := s[..|s| - 1];
      SelectAll(init, key, c);
      assert forall i :: 0 <= i < |init| ==> init[i] == s[i];
    }
  }

  /** No element has key c, so nothing is selected. */
  lemma {:induction false} SelectNone<T, C>(s: seq<T>, key: T -> C, c: C)
    requires forall i :: 0 <= i < |s| ==> key(s[i]) != c
    ensures Select(s, key, c) == []
  {
    if |s| > 0 {
      SelectNone(s[..|s| - 1], key, c);
    }
  }

  /** Nothing is selected exactly when no element has key c. */
  lemma SelectNoneIff<T, C>(s: seq<T>, key: T -> C, c: C)
    ensures Select(s, key, c) == [] <==> forall i :: 0 <= i < |s| ==> key(s[i]) != c
  {
    if forall i :: 0 <= i < |s| ==> key(s[i]) != c {
      SelectNone(s, key, c);
    } else {
      var i :| 0 <= i < |s| && key(s[i]) == c;
      SelectMembers(s, key, c, s[i]);
    }
  }

  predicate Distinct<C(==)>(cs: seq<C>)
  {
    forall i, j :: 0 <= i < j < |cs| ==> cs[i] != cs[j]
  }

  /** The number of times v occurs in cs. */
  function Occurrences<C(==)>(cs: seq<C>, v: C): (n: nat)
    ensures n <= |cs|
  {
    if |cs| == 0 then 0 else (if cs[0] == v then 1 else 0) + Occurrences(cs[1..], v)
  }

  lemma {:induction false} OccursOnce<C>(cs: seq<C>, v: C)
    requires Distinct(cs) && v in cs
    ensures Occurrences(cs, v) == 1
  {
    if cs[0] == v {
      NotOccurring(cs[1..], v);
    } else {
      OccursOnce(cs[1..], v);
    }
  }

  lemma {:induction false} NotOccurring<C>(cs: seq<C>, v: C)
    requires v !in cs
    ensures Occurrences(cs, v) == 0
  {
    if |cs| > 0 {
      NotOccurring(cs[1..], v);
    }
  }

  /** The class sizes of s, summed over the classes listed in cs. */
  function SumCounts<T, C(==)>(s: seq<T>, key: T -> C, cs: seq<C>): nat
  {
    if |cs| == 0 then 0 else |Select(s, key, cs[0])| + SumCounts(s, key, cs[1..])
  }

  /** One more element adds one to each listed class it belongs to. */
  lemma {:induction false} SumCountsSnoc<T, C>(s: seq<T>, x: T, key: T -> C, cs: seq<C>)
    ensures SumCounts(s + [x], key, cs) == SumCounts(s, key, cs) + Occurrences(cs, key(x))
  {
    if |cs| > 0 {
      SelectSnoc(s, x, key, cs[0]);
      SumCountsSnoc(s, x, key, cs[1..]);
    }
  }

  /** When every key lies among the distinct classes cs, the class sizes
      add up to the length of the sequence. */
  lemma {:induction false} CountsPartition<T, C>(s: seq<T>, key: T -> C, cs: seq<C>)
    requires Distinct(cs)
    requires forall i :: 0 <= i < |s| ==> key(s[i]) in cs
    ensures SumCounts(s, key, cs) == |s|
  {
    if |s| == 0 {
      EmptyCounts(key, cs);
    } else {
      var init, x := s[..|s| - 1], s[|s| - 1];
      assert s == init + [x];
      CountsPartition(init, key, cs);
      SumCountsSnoc(init, x, key, cs);
      OccursOnce(cs, key(x));
    }
  }

  lemma {:induction false} EmptyCounts<T, C>(key: T -> C, cs: seq<C>)
    ensures SumCounts([], key, cs) == 0
  {
    if |cs| > 0 {
      EmptyCounts(key, cs[1..]);
    }
  }

  /** Gathering the three classes of a three-way split one after the other
      rearranges the sequence and loses nothing. */
  lemma {:induction false} ThreeWayPermutation<T, C>(s: seq<T>, key: T -> C, a: C, b: C, c: C)
    requires a != b && b != c && a != c
    requires forall i :: 0 <= i < |s| ==> key(s[i]) == a || key(s[i]) == b || key(s[i]) == c
    ensures multiset(Select(s, key, a) + Select(s, key, b) + Select(s, key, c)) == multiset(s)
  {
    if |s| > 0 {
      var init, x := s[..|s| - 1], s[|s| - 1];
      assert s == init + [x];
      ThreeWayPermutation(init, key, a, b, c);
      SelectSnoc(init, x, key, a);
      SelectSnoc(init, x, key, b);
      SelectSnoc(init, x, key, c);
    }
  }

  /** A three-way split: the three class sizes add up to the length. */
  lemma ThreeWayCounts<T, C>(s: seq<T>, key: T -> C, a: C, b: C, c: C)
    requires a != b && b != c && a != c
    requires forall i :: 0 <= i < |s| ==> key(s[i]) == a || key(s[i]) == b || key(s[i]) == c
    ensures |Select(s, key, a)| + |Select(s, key, b)| + |Select(s, key, c)| == |s|
  {
    var cs := [a, b, c];
    CountsPartition(s, key, cs);
    assert cs[1..] == [b, c] && cs[1..][1..] == [c] && cs[1..][1..][1..] == [];
  }

  /** A four-way split: the four class sizes add up to the length. */
  lemma FourWayCounts<T, C>(s: seq<T>, key: T -> C, a: C, b: C, c: C, d: C)
    requires a != b && a != c && a != d && b != c && b != d && c != d
    requires forall i :: 0 <= i < |s| ==> key(s[i]) == a || key(s[i]) == b || key(s[i]) == c || key(s[i]) == d
    ensures |Select(s, key, a)| + |Select(s, key, b)| + |Select(s, key, c)| + |Select(s, key, d)| == |s|
  {
    var cs := [a, b, c, d];
    CountsPartition(s, key, cs);
    assert cs[1..] == [b, c, d] && cs[1..][1..] == [c, d] && cs[1..][1..][1..] == [d];
    assert cs[1..][1..][1..][1..] == [];
  }
}
