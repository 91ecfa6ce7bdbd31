/** The string built-ins the core relies on: str.split('\n'), str.strip()
    and the decimal rendering of a day number. */
module Text {
  import opened Common

  /** The code points Python's str.isspace() accepts, and so the ones
      str.strip() removes: the ASCII controls 9-13 and 28-31, the space,
      and the Unicode separators and spaces. */
  const SpaceCodes: seq<int> := [10, 32, 9, 11, 12, 13, 28, 29, 30, 31, 0x85, 0xA0, 0x1680,
    0x2000, 0x2001, 0x2002, 0x2003, 0x2004, 0x2005, 0x2006, 0x2007, 0x2008, 0x2009, 0x200A,
    0x2028, 0x2029, 0x202F, 0x205F, 0x3000]

  /** Whether n is one of the codes. */
  predicate Listed(n: int, codes: seq<int>)
  {
    codes != [] && (codes[0] == n || Listed(n, codes[1..]))
  }

  predicate IsSpace(c: char)
  {
    Listed(c as int, SpaceCodes)
  }

  predicate AllSpace(s: string)
  {
    forall i :: 0 <= i < |s| ==> IsSpace(s[i])
  }

  function StripLeft(s: string): (r: string)
    ensures |r| <= |s| && r == s[|s| - |r|..]
    ensures r == [] || !IsSpace(r[0])
    ensures AllSpace(s[..|s| - |r|])
  {
    if s != [] && IsSpace(s[0]) then
      var r := StripLeft(s[1..]);
      TakeAfterHead(s, |s| - |r|);
      r
    else s
  }

  function StripRight(s: string): (r: string)
    ensures |r| <= |s| && r == s[..|r|]
    ensures r == [] || !IsSpace(r[|r| - 1])
    ensures AllSpace(s[|r|..])
  {
    if s != [] && IsSpace(s[|s| - 1]) then
      var r := StripRight(s[..|s| - 1]);
      assert s[|r|..] == s[..|s| - 1][|r|..] + [s[|s| - 1]];
      r
    else s
  }

  /** str.strip(): the slice of s left once the whitespace at both ends is
      cut off. */
  function Strip(s: string): (r: string)
    ensures |r| <= |s|
    ensures r == [] || (!IsSpace(r[0]) && !IsSpace(r[|r| - 1]))
    ensures r == [] <==> AllSpace(s)
  {
    var left := StripLeft(s);
    var r := StripRight(left);
    StripEmptyIff(s, left, r);
    assert r != [] ==> r[0] == left[0];
    r
  }

  /** The number of whitespace characters str.strip() cuts off the front. */
  function Leading(s: string): (n: nat)
    ensures n <= |s| && s[n..] == StripLeft(s)
  {
    |s| - |StripLeft(s)|
  }

  /** str.strip() only cuts: its result is the slice of s that starts
      after the leading whitespace, with nothing but whitespace after it. */
  lemma StripSlice(s: string)
    ensures Leading(s) + |Strip(s)| <= |s| && Strip(s) == s[Leading(s)..Leading(s) + |Strip(s)|]
    ensures AllSpace(s[..Leading(s)]) && AllSpace(s[Leading(s) + |Strip(s)|..])
  {
    var left := StripLeft(s);
    var r := StripRight(left);
    var i := Leading(s);
    assert Strip(s) == r && i == |s| - |left|;
    SliceOfDrop(s, i, left, |r|);
    assert AllSpace(s[..i]);
    assert AllSpace(left[|r|..]);
  }

  /** Nothing is left exactly when s is all whitespace. */
  lemma StripEmptyIff(s: string, left: string, r: string)
    requires left == StripLeft(s) && r == StripRight(left)
    ensures r == [] <==> AllSpace(s)
  {
    if r == [] {
      assert AllSpace(left);
      TakeThenDrop(s, |s| - |left|);
    } else {
      assert r[0] == left[0] == s[|s| - |left|];
    }
  }

  /** str.split('\n'): the pieces between the newlines, always at least one. */
  function SplitLines(s: string): (pieces: seq<string>)
    ensures |pieces| >= 1
    ensures forall k :: 0 <= k < |pieces| ==> '\n' !in pieces[k]
  {
    if s == [] then [""]
    else if s[0] == '\n' then [""] + SplitLines(s[1..])
    else
      var rest := SplitLines(s[1..]);
      [[s[0]] + rest[0]] + rest[1..]
  }

  /** Splitting two texts joined by a newline gives the pieces of the
      first followed by the pieces of the second. */
  lemma {:induction false} SplitLinesJoin(a: string, b: string)
    ensures SplitLines(a + "\n" + b) == SplitLines(a) + SplitLines(b)
  {
    var t := a + "\n" + b;
    if a == [] {
      assert t[0] == '\n' && t[1..] == b;
    } else {
      var ta := a[1..] + "\n" + b;
      assert t[0] == a[0] && t[1..] == ta;
      SplitLinesJoin(a[1..], b);
      if a[0] != '\n' {
        var ra := SplitLines(a[1..]);
        var rest := SplitLines(ta);
        assert rest[0] == ra[0];
        assert rest[1..] == ra[1..] + SplitLines(b);
      }
    }
  }

  /** A text without a newline is a single piece. */
  lemma {:induction false} SplitLinesOneLine(line: string)
    requires '\n' !in line
    ensures SplitLines(line) == [line]
  {
    if line != [] {
      SplitLinesOneLine(line[1..]);
      assert [line[0]] + line[1..] == line;
    }
  }

  /** '\n'.join(pieces), the inverse of SplitLines. */
  function JoinLines(pieces: seq<string>): string
    requires |pieces| >= 1
  {
    if |pieces| == 1 then pieces[0] else pieces[0] + "\n" + JoinLines(pieces[1..])
  }

  /** Splitting loses nothing: joining the pieces gives the text back. */
  lemma {:induction false} SplitJoin(s: string)
    ensures JoinLines(SplitLines(s)) == s
  {
    if s == [] {
    } else if s[0] == '\n' {
      SplitJoin(s[1..]);
      assert SplitLines(s) == [""] + SplitLines(s[1..]);
      assert [""] + SplitLines(s[1..]) != [] && ([""] + SplitLines(s[1..]))[1..] == SplitLines(s[1..]);
      assert s == "" + "\n" + s[1..];
    } else {
      SplitJoin(s[1..]);
      var rest := SplitLines(s[1..]);
      var pieces := [[s[0]] + rest[0]] + rest[1..];
      assert SplitLines(s) == pieces;
      if |rest| == 1 {
        assert JoinLines(pieces) == [s[0]] + rest[0];
      } else {
        assert pieces[1..] == rest[1..];
        assert JoinLines(rest) == rest[0] + "\n" + JoinLines(rest[1..]);
        assert JoinLines(pieces) == [s[0]] + rest[0] + "\n" + JoinLines(rest[1..]);
      }
      assert s == [s[0]] + s[1..];
    }
  }

  function Digit(d: nat): (c: char)
    requires d < 10
    ensures '0' <= c <= '9'
  {
    ('0' as int + d) as char
  }

  predicate AllDigits(s: string)
  {
    forall k :: 0 <= k < |s| ==> '0' <= s[k] <= '9'
  }

  /** The number a string of decimal digits spells, most significant first. */
  function DigitsValue(s: string): nat
    requires AllDigits(s)
  {
    if s == [] then 0 else 10 * DigitsValue(s[..|s| - 1]) + (s[|s| - 1] as int - '0' as int)
  }

  /** str(n) for a non-negative integer: the digits that spell n, without a
      leading zero. */
  function DecimalString(n: nat): (s: string)
    ensures |s| >= 1 && AllDigits(s)
    ensures DigitsValue(s) == n
    ensures s[0] == '0' ==> s == "0"
  {
    if n < 10 then [Digit(n)]
    else
      var init := DecimalString(n / 10);
      var s := init + [Digit(n % 10)];
      assert s[..|s| - 1] == init;
      s
  }

  /** Different numbers never render the same. */
  lemma DecimalStringInjective(m: nat, n: nat)
    requires DecimalString(m) == DecimalString(n)
    ensures m == n
  {
  }
}
