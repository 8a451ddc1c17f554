/**
  The few operations of java.lang.String and java.lang.Integer that the
  validator relies on: the natural ordering used by Arrays.sort and
  Arrays.binarySearch, indexOf, startsWith, endsWith and the decimal
  rendering of a non-negative int.
 */
module JavaString {

  /** String.compareTo: the difference of the first pair of differing
      characters, or, when one string is a prefix of the other, the
      difference of the lengths. */
  function CompareTo(a: string, b: string): int
    decreases |a|
  {
    if |a| == 0 || |b| == 0 then |a| - |b|
    else if a[0] != b[0] then a[0] as int - b[0] as int
    else CompareTo(a[1..], b[1..])
  }

  /** Swapping the arguments negates the comparison. */
  lemma {:induction false} CompareToAntisymmetric(a: string, b: string)
    ensures CompareTo(b, a) == -CompareTo(a, b)
    decreases |a|
  {
    if |a| == 0 || |b| == 0 {
    } else if a[0] != b[0] {
    } else {
      CompareToAntisymmetric(a[1..], b[1..]);
    }
  }

  /** compareTo answers 0 exactly for equal strings. */
  lemma {:induction false} CompareToZeroIffEqual(a: string, b: string)
    ensures CompareTo(a, b) == 0 <==> a == b
    decreases |a|
  {
    if |a| == 0 || |b| == 0 {
    } else if a[0] != b[0] {
    } else {
      CompareToZeroIffEqual(a[1..], b[1..]);
      assert a == [a[0]] + a[1..];
      assert b == [b[0]] + b[1..];
    }
  }

  /** The non-strict ordering is transitive. */
  lemma {:induction false} CompareToTransitive(a: string, b: string, c: string)
    requires CompareTo(a, b) <= 0 && CompareTo(b, c) <= 0
    ensures CompareTo(a, c) <= 0
    decreases |a|
  {
    if |a| == 0 || |b| == 0 || |c| == 0 {
    } else if a[0] != b[0] || b[0] != c[0] {
    } else {
      CompareToTransitive(a[1..], b[1..], c[1..]);
    }
  }

  /** A non-strict step followed by a strict step is strict. */
  lemma CompareToTransitiveStrictRight(a: string, b: string, c: string)
    requires CompareTo(a, b) <= 0 && CompareTo(b, c) < 0
    ensures CompareTo(a, c) < 0
  {
    CompareToTransitive(a, b, c);
    CompareToZeroIffEqual(a, c);
    CompareToAntisymmetric(b, c);
  }

  /** A strict step followed by a non-strict step is strict. */
  lemma CompareToTransitiveStrictLeft(a: string, b: string, c: string)
    requires CompareTo(a, b) < 0 && CompareTo(b, c) <= 0
    ensures CompareTo(a, c) < 0
  {
    CompareToTransitive(a, b, c);
    CompareToZeroIffEqual(a, c);
    CompareToAntisymmetric(a, b);
  }

  /** sub occurs in s starting at index i. */
  ghost predicate OccursAt(s: string, sub: string, i: int)
  {
    0 <= i && i + |sub| <= |s| && s[i..i + |sub|] == sub
  }

  /** String.indexOf(String): the first index at which sub occurs, or -1. */
  function IndexOf(s: string, sub: string): (r: int)
    ensures r == -1 || OccursAt(s, sub, r)
    ensures r == -1 <==> forall i :: !OccursAt(s, sub, i)
    ensures forall i :: 0 <= i < r ==> !OccursAt(s, sub, i)
    decreases |s|
  {
    if |s| < |sub| then -1
    else if sub <= s then 0
    else
      var k := IndexOf(s[1..], sub);
      OccursAtShift(s, sub);
      if k == -1 then -1 else k + 1
  }

  /** An occurrence at 0 is a prefix; occurrences further right are the
      occurrences in s[1..], shifted by one. */
  lemma OccursAtShift(s: string, sub: string)
    requires |s| > 0
    ensures OccursAt(s, sub, 0) <==> sub <= s
    ensures forall i :: 1 <= i ==> (OccursAt(s, sub, i) <==> OccursAt(s[1..], sub, i - 1))
  {
    forall i | 1 <= i
      ensures OccursAt(s, sub, i) <==> OccursAt(s[1..], sub, i - 1)
    {
      if i + |sub| <= |s| {
        assert s[1..][i - 1..i - 1 + |sub|] == s[i..i + |sub|];
      }
    }
  }

  /** String.startsWith. */
  predicate StartsWith(s: string, prefix: string)
  {
    prefix <= s
  }

  /** String.endsWith. */
  predicate EndsWith(s: string, suffix: string)
  {
    |suffix| <= |s| && s[|s| - |suffix|..] == suffix
  }

  /** A one-character indexOf finds the character exactly when it is in the string. */
  lemma IndexOfCharIffContains(s: string, c: char)
    ensures IndexOf(s, [c]) != -1 <==> c in s
  {
    if c in s {
      var i :| 0 <= i < |s| && s[i] == c;
      assert s[i..i + 1] == [c];
      assert OccursAt(s, [c], i);
    }
    if IndexOf(s, [c]) != -1 {
      var k := IndexOf(s, [c]);
      assert s[k..k + 1] == [c];
      assert s[k] == c;
    }
  }

  /** The decimal digit character for d. */
  function DigitChar(d: nat): char
    requires d < 10
  {
    ('0' as int + d) as char
  }

  predicate IsDigit(c: char)
  {
    '0' <= c <= '9'
  }

  /** Integer.toString for a non-negative value: its decimal digits, with no
      leading zero. */
  function NatToString(n: nat): (s: string)
    ensures |s| > 0 && forall i :: 0 <= i < |s| ==> IsDigit(s[i])
    ensures s[0] != '0' || n == 0
    decreases n
  {
    if n < 10 then [DigitChar(n)]
    else NatToString(n / 10) + [DigitChar(n % 10)]
  }

  /** The number a string of decimal digits denotes. */
  function DigitsValue(s: string): nat
    requires forall i :: 0 <= i < |s| ==> IsDigit(s[i])
  {
    if s == [] then 0
    else
      var last := s[|s| - 1];
      assert IsDigit(last);
      DigitsValue(s[..|s| - 1]) * 10 + (last as int - '0' as int)
  }

  /** Reading back the rendered digits yields the number. */
  lemma {:induction false} NatToStringRoundTrip(n: nat)
    ensures DigitsValue(NatToString(n)) == n
    decreases n
  {
    var s := NatToString(n);
    if n < 10 {
    } else {
      NatToStringRoundTrip(n / 10);
      assert s[..|s| - 1] == NatToString(n / 10);
    }
  }
}
