/** Shared value types and the numeric helpers the Python code gets from its
    built-ins: max/min on mixed int/float values, int() truncation and
    round(x, n). All arithmetic is on unbounded reals. */
module Common {

  datatype Option<+T> = None | Some(value: T)

  /** The clock readings the source takes from datetime: the current year,
      the current month (1..12) and today's date as a day number. */
  datatype Clock = Clock(year: int, month: int, today: int)

  function MaxR(a: real, b: real): real { if a >= b then a else b }

  function MinR(a: real, b: real): real { if a <= b then a else b }

  /** Python's int() on a float: truncation toward zero. */
  function Trunc(x: real): (n: int)
    ensures x >= 0.0 ==> 0 <= n && n as real <= x < n as real + 1.0
    ensures x < 0.0 ==> n <= 0 && x <= n as real < x + 1.0
  {
    if x >= 0.0 then x.Floor else -((-x).Floor)
  }

  /** Python's round(x, 1), taken as exact decimal rounding with ties
      rounded up (Python rounds the binary value, ties to even). */
  function Round1(x: real): real
  {
    ((x * 10.0 + 0.5).Floor as real) / 10.0
  }

  /** Python's round(x, 2), with the same reading as Round1. */
  function Round2(x: real): real
  {
    ((x * 100.0 + 0.5).Floor as real) / 100.0
  }

  /** Rounding moves a value by at most half a unit of the last place. */
  lemma Round1IsClose(x: real)
    ensures x - 0.05 < Round1(x) <= x + 0.05
  {
  }

  lemma Round2IsClose(x: real)
    ensures x - 0.005 < Round2(x) <= x + 0.005
  {
  }

  lemma Round1Monotone(x: real, y: real)
    requires x <= y
    ensures Round1(x) <= Round1(y)
  {
    FloorMonotone(x * 10.0 + 0.5, y * 10.0 + 0.5);
  }

  lemma Round2Monotone(x: real, y: real)
    requires x <= y
    ensures Round2(x) <= Round2(y)
  {
    FloorMonotone(x * 100.0 + 0.5, y * 100.0 + 0.5);
  }

  lemma FloorMonotone(a: real, b: real)
    requires a <= b
    ensures a.Floor <= b.Floor
  {
    assert a.Floor as real <= a;
    assert b < b.Floor as real + 1.0;
  }

  /** Rounding keeps a value inside whole-number bounds. */
  lemma Round1Within(x: real, lo: int, hi: int)
    requires lo as real <= x <= hi as real
    ensures lo as real <= Round1(x) <= hi as real
  {
    Round1Monotone(lo as real, x);
    Round1Monotone(x, hi as real);
    assert (lo as real * 10.0 + 0.5).Floor == lo * 10;
    assert (hi as real * 10.0 + 0.5).Floor == hi * 10;
  }

  lemma Round2Within(x: real, lo: int, hi: int)
    requires lo as real <= x <= hi as real
    ensures lo as real <= Round2(x) <= hi as real
  {
    Round2Monotone(lo as real, x);
    Round2Monotone(x, hi as real);
    assert (lo as real * 100.0 + 0.5).Floor == lo * 100;
    assert (hi as real * 100.0 + 0.5).Floor == hi * 100;
  }

  /** The mean of n values whose sum is total. */
  function Mean(total: real, n: nat): (m: real)
    requires n > 0
    ensures m * n as real == total
  {
    total / n as real
  }

  /** n values, each in [0, top], have a mean in [0, top]. */
  lemma MeanWithin(total: real, n: nat, top: real)
    requires n > 0 && 0.0 <= top && 0.0 <= total <= n as real * top
    ensures 0.0 <= Mean(total, n) <= top
  {
  }

  /** The first i + 1 elements are the first i and then element i. */
  lemma TakeOneMore<T>(s: seq<T>, i: nat)
    requires i < |s|
    ensures s[..i + 1] == s[..i] + [s[i]]
  {
  }

  /** A concatenation with a non-empty front starts with the front's head
      and continues with the rest of the front and then the back. */
  lemma DropFirstOfConcat<T>(a: seq<T>, b: seq<T>)
    requires a != []
    ensures (a + b)[0] == a[0] && (a + b)[1..] == a[1..] + b
  {
  }

  /** A prefix of length n > 0 is the head followed by a prefix of the tail. */
  lemma TakeAfterHead<T>(s: seq<T>, n: nat)
    requires 0 < n <= |s|
    ensures s[..n] == [s[0]] + s[1..][..n - 1]
  {
  }

  lemma AppendAssoc<T>(a: seq<T>, b: seq<T>, c: seq<T>)
    ensures a + (b + c) == (a + b) + c
  {
  }

  /** A prefix of the suffix s[i..] is a middle slice of s, and what
      follows it in the suffix is what follows it in s. */
  lemma SliceOfDrop<T>(s: seq<T>, i: nat, suffix: seq<T>, n: nat)
    requires i <= |s| && suffix == s[i..] && n <= |suffix|
    ensures suffix[..n] == s[i..i + n] && suffix[n..] == s[i + n..]
  {
  }

  lemma TakeThenDrop<T>(s: seq<T>, n: nat)
    requires n <= |s|
    ensures s == s[..n] + s[n..]
  {
  }
}
