/** The two pieces of Python string behaviour the launcher relies on:
    `str.strip()` with no argument, applied to the picker's answer, and the
    ordering `<=` on `str`, by which the project listing is sorted. */
module Text {

  /** Python's `str.isspace` for one character: the ASCII controls TAB to CR,
      the information separators 0x1C-0x1F, the space, NEL, NO-BREAK SPACE and
      the Unicode space separators, line and paragraph separators. */
  predicate IsSpace(c: char) {
    var n := c as int;
    n == 0x20 || 0x09 <= n <= 0x0D || 0x1C <= n <= 0x1F || n == 0x85 || n == 0xA0
    || n == 0x1680 || 0x2000 <= n <= 0x200A || n == 0x2028 || n == 0x2029
    || n == 0x202F || n == 0x205F || n == 0x3000
  }

  predicate AllSpace(s: string) {
    forall k :: 0 <= k < |s| ==> IsSpace(s[k])
  }

  /** Drops the leading whitespace: what is left is a suffix of `s` that is
      empty or starts with a non-space, and everything dropped is whitespace. */
  function TrimStart(s: string): (r: string)
    ensures |r| <= |s| && r == s[|s| - |r|..]
    ensures AllSpace(s[..|s| - |r|])
    ensures r != [] ==> !IsSpace(r[0])
  {
    if s != [] && IsSpace(s[0]) then
      var t := s[1..];
      var r := TrimStart(t);
      assert t[|t| - |r|..] == s[|s| - |r|..];
      assert AllSpace(s[..|s| - |r|]) by {
        forall k | 0 <= k < |s| - |r|
          ensures IsSpace(s[k])
        {
          if k > 0 {
            assert s[k] == t[..|t| - |r|][k - 1];
          }
        }
      }
      r
    else
      s
  }

  /** Drops the trailing whitespace: what is left is a prefix of `s` that is
      empty or ends with a non-space, and everything dropped is whitespace. */
  function TrimEnd(s: string): (r: string)
    ensures |r| <= |s| && r == s[..|r|]
    ensures AllSpace(s[|r|..])
    ensures r != [] ==> !IsSpace(r[|r| - 1])
  {
    if s != [] && IsSpace(s[|s| - 1]) then
      var t := s[..|s| - 1];
      var r := TrimEnd(t);
      assert t[..|r|] == s[..|r|];
      assert AllSpace(s[|r|..]) by {
        forall k | |r| <= k < |s|
          ensures IsSpace(s[k])
        {
          if k < |s| - 1 {
            assert s[k] == t[|r|..][k - |r|];
          }
        }
      }
      r
    else
      s
  }

  /** The number of whitespace characters `str.strip()` removes at the front. */
  function Leading(s: string): (n: nat)
    ensures n <= |s|
  {
    |s| - |TrimStart(s)|
  }

  /** `s.strip()`: the slice of `s` that remains once the whitespace at both
      ends is removed; it is empty exactly when `s` is all whitespace. */
  function Strip(s: string): (r: string)
    ensures Leading(s) + |r| <= |s| && r == s[Leading(s)..Leading(s) + |r|]
    ensures AllSpace(s[..Leading(s)]) && AllSpace(s[Leading(s) + |r|..])
    ensures r != [] ==> !IsSpace(r[0]) && !IsSpace(r[|r| - 1])
    ensures r == [] <==> AllSpace(s)
  {
    var t := TrimStart(s);
    var r := TrimEnd(t);
    assert r == [] ==> s == s[..Leading(s)] + t[|r|..];
    assert r != [] ==> !AllSpace(s) by {
      if r != [] {
        assert s[Leading(s)] == r[0];
      }
    }
    r
  }

  /** Stripping twice is stripping once. */
  lemma StripIdempotent(s: string)
    ensures Strip(Strip(s)) == Strip(s)
  {
    var r := Strip(s);
    assert Leading(r) == 0;
  }

  /** A string with no whitespace at either end is its own strip. */
  lemma StripClean(s: string)
    requires s != [] && !IsSpace(s[0]) && !IsSpace(s[|s| - 1])
    ensures Strip(s) == s
  {
  }

  /** Python's `a <= b` on `str`: code points are compared from the left, and a
      proper prefix comes first. */
  predicate StrLessEq(a: string, b: string) {
    a == [] || (b != [] && (a[0] < b[0] || (a[0] == b[0] && StrLessEq(a[1..], b[1..]))))
  }

  lemma {:induction false} StrLessEqReflexive(a: string)
    ensures StrLessEq(a, a)
  {
    if a != [] {
      StrLessEqReflexive(a[1..]);
    }
  }

  lemma {:induction false} StrLessEqTotal(a: string, b: string)
    ensures StrLessEq(a, b) || StrLessEq(b, a)
  {
    if a != [] && b != [] && a[0] == b[0] {
      StrLessEqTotal(a[1..], b[1..]);
    }
  }

  lemma {:induction false} StrLessEqAntisymmetric(a: string, b: string)
    requires StrLessEq(a, b) && StrLessEq(b, a)
    ensures a == b
  {
    if a != [] && b != [] {
      StrLessEqAntisymmetric(a[1..], b[1..]);
      assert a == [a[0]] + a[1..];
      assert b == [b[0]] + b[1..];
    }
  }

  lemma {:induction false} StrLessEqTransitive(a: string, b: string, c: string)
    requires StrLessEq(a, b) && StrLessEq(b, c)
    ensures StrLessEq(a, c)
  {
    if a != [] && b != [] && c != [] && a[0] == b[0] && b[0] == c[0] {
      StrLessEqTransitive(a[1..], b[1..], c[1..]);
    }
  }

  /** Strings in non-decreasing order. */
  predicate SortedStrings(xs: seq<string>) {
    forall i, j :: 0 <= i < j < |xs| ==> StrLessEq(xs[i], xs[j])
  }

  /** The tail of a sorted sequence of strings is sorted. */
  lemma SortedTailStrings(a: seq<string>)
    requires SortedStrings(a) && a != []
    ensures SortedStrings(a[1..])
  {
    var t := a[1..];
    forall i, j | 0 <= i < j < |t|
      ensures StrLessEq(t[i], t[j])
    {
      assert t[i] == a[i + 1] && t[j] == a[j + 1];
    }
  }

  /** The head of a sorted sequence is no greater than anything in it. */
  lemma SortedHeadLeast(a: seq<string>, x: string)
    requires SortedStrings(a) && x in multiset(a)
    ensures a != [] && StrLessEq(a[0], x)
  {
    var i :| 0 <= i < |a| && a[i] == x;
    if i == 0 {
      StrLessEqReflexive(x);
    }
  }

  /** Taking the same element off two equal multisets leaves equal multisets. */
  lemma MultisetTails(a: seq<string>, b: seq<string>)
    requires a != [] && b != [] && a[0] == b[0] && multiset(a) == multiset(b)
    ensures multiset(a[1..]) == multiset(b[1..])
  {
    assert a == [a[0]] + a[1..] && b == [b[0]] + b[1..];
    forall y
      ensures multiset(a[1..])[y] == multiset(b[1..])[y]
    {
      assert (multiset{a[0]} + multiset(a[1..]))[y] == (multiset{b[0]} + multiset(b[1..]))[y];
    }
  }

  /** There is only one sorted arrangement of a multiset of strings, so a
      sorted output is fixed by the strings alone and not by their input order. */
  lemma {:induction false} SortedStringsUnique(a: seq<string>, b: seq<string>)
    requires SortedStrings(a) && SortedStrings(b)
    requires multiset(a) == multiset(b)
    ensures a == b
  {
    if a == [] {
      assert |b| == |multiset(b)| == 0;
    } else {
      assert a[0] in multiset(a);
      SortedHeadLeast(b, a[0]);
      SortedHeadLeast(a, b[0]);
      StrLessEqAntisymmetric(a[0], b[0]);
      MultisetTails(a, b);
      SortedTailStrings(a);
      SortedTailStrings(b);
      SortedStringsUnique(a[1..], b[1..]);
      assert a == [a[0]] + a[1..] && b == [b[0]] + b[1..];
    }
  }
}
