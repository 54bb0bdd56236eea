/**
 * The string operations the two screens use: ASCII lower-casing, removal of
 * every occurrence of a pattern (Foundation's `replacingOccurrences(of:with:)`
 * with an empty replacement) and the decimal rendering of a count that string
 * interpolation performs.
 */
module Text {

  predicate IsAsciiUpper(c: char) { 'A' <= c <= 'Z' }

  predicate IsDigit(c: char) { '0' <= c <= '9' }

  /** Lower-cases one character, leaving everything outside 'A'..'Z' alone. */
  function LowerChar(c: char): (l: char)
    ensures !IsAsciiUpper(l)
    ensures IsAsciiUpper(c) ==> l as int - c as int == 'a' as int - 'A' as int
  {
    if IsAsciiUpper(c) then (c as int - 'A' as int + 'a' as int) as char else c
  }

  /** `String.lowercased()`, restricted to ASCII letters. */
  function Lowercased(s: string): (r: string)
    ensures |r| == |s|
    ensures forall i :: 0 <= i < |r| ==> !IsAsciiUpper(r[i])
    ensures forall i :: 0 <= i < |s| && !IsAsciiUpper(s[i]) ==> r[i] == s[i]
    ensures forall i :: 0 <= i < |s| && IsAsciiUpper(s[i]) ==> r[i] as int == s[i] as int + 32
  {
    seq(|s|, i requires 0 <= i < |s| => LowerChar(s[i]))
  }

  /** Lower-casing a string that is already lower case changes nothing. */
  lemma LowercasedIdempotent(s: string)
    ensures Lowercased(Lowercased(s)) == Lowercased(s)
  {
  }

  /** `pat` starts at index `i` of `s`. */
  predicate OccursAt(s: string, pat: string, i: nat)
  {
    i + |pat| <= |s| && s[i..i + |pat|] == pat
  }

  /**
   * `s.replacingOccurrences(of: pat, with: "")`: scans left to right and
   * drops each non-overlapping occurrence of `pat` it meets. The result can
   * still contain `pat` (removing "Event" from "EvEventent" leaves "Event"),
   * so the contract says only that characters are dropped, never added; the
   * lemmas below say which.
   */
  function RemoveOccurrences(s: string, pat: string): (r: string)
    requires |pat| > 0
    ensures |r| <= |s|
    ensures multiset(r) <= multiset(s)
    decreases |s|
  {
    if |s| < |pat| then s
    else if s[..|pat|] == pat then
      var rest := RemoveOccurrences(s[|pat|..], pat);
      assert s == s[..|pat|] + s[|pat|..];
      rest
    else
      var rest := RemoveOccurrences(s[1..], pat);
      assert s == [s[0]] + s[1..];
      [s[0]] + rest
  }

  /** A leading copy of `pat` is dropped and the scan restarts right after it. */
  lemma RemoveLeading(s: string, pat: string)
    requires |pat| > 0
    ensures RemoveOccurrences(pat + s, pat) == RemoveOccurrences(s, pat)
  {
  }

  /** A string in which `pat` occurs nowhere is returned unchanged. */
  lemma {:induction false} RemoveAbsent(s: string, pat: string)
    requires |pat| > 0
    requires forall i :: 0 <= i < |s| ==> !OccursAt(s, pat, i)
    ensures RemoveOccurrences(s, pat) == s
    decreases |s|
  {
    if |s| >= |pat| {
      assert !OccursAt(s, pat, 0);
      forall i | 0 <= i < |s[1..]|
        ensures !OccursAt(s[1..], pat, i)
      {
        assert !OccursAt(s, pat, i + 1);
        if i + |pat| <= |s[1..]| {
          assert s[1..][i..i + |pat|] == s[i + 1..i + 1 + |pat|];
        }
      }
      RemoveAbsent(s[1..], pat);
      assert s == [s[0]] + s[1..];
    }
  }

  /**
   * The first occurrence of `pat` is dropped, the characters before it are
   * kept in order, and the scan goes on after it ("FooEventBar" becomes
   * "Foo" + the scan of "Bar"). With `RemoveAbsent` this fixes the result on
   * every input.
   */
  lemma {:induction false} RemoveFirst(a: string, b: string, pat: string)
    requires |pat| > 0
    requires forall i :: 0 <= i < |a| ==> !OccursAt(a + pat + b, pat, i)
    ensures RemoveOccurrences(a + pat + b, pat) == a + RemoveOccurrences(b, pat)
    decreases |a|
  {
    var s := a + pat + b;
    if |a| == 0 {
      assert s == pat + b;
      RemoveLeading(b, pat);
    } else {
      var rest := a[1..] + pat + b;
      assert s == [a[0]] + rest by {
        assert a == [a[0]] + a[1..];
      }
      forall i | 0 <= i < |a[1..]|
        ensures !OccursAt(rest, pat, i)
      {
        assert !OccursAt(s, pat, i + 1);
        OccursShift(a[0], rest, pat, i);
      }
      assert !OccursAt([a[0]] + rest, pat, 0) by {
        assert !OccursAt(s, pat, 0);
      }
      calc {
        RemoveOccurrences(s, pat);
        RemoveOccurrences([a[0]] + rest, pat);
        { RemoveStep(a[0], rest, pat); }
        [a[0]] + RemoveOccurrences(rest, pat);
        { RemoveFirst(a[1..], b, pat); }
        [a[0]] + (a[1..] + RemoveOccurrences(b, pat));
        { assert a == [a[0]] + a[1..]; }
        a + RemoveOccurrences(b, pat);
      }
    }
  }

  /** A first character that does not start `pat` is kept, and the scan moves on by one. */
  lemma RemoveStep(c: char, rest: string, pat: string)
    requires |pat| > 0
    requires !OccursAt([c] + rest, pat, 0)
    ensures RemoveOccurrences([c] + rest, pat) == [c] + RemoveOccurrences(rest, pat)
  {
    var s := [c] + rest;
    assert s[1..] == rest;
    if |s| < |pat| {
      RemoveShort(rest, pat);
    }
  }

  /** A string shorter than `pat` holds no occurrence and comes back as it is. */
  lemma RemoveShort(s: string, pat: string)
    requires |pat| > 0 && |s| < |pat|
    ensures RemoveOccurrences(s, pat) == s
  {
  }

  /** An occurrence one position further into `[c] + rest` is an occurrence in `rest`. */
  lemma OccursShift(c: char, rest: string, pat: string, i: nat)
    ensures OccursAt([c] + rest, pat, i + 1) == OccursAt(rest, pat, i)
  {
    if i + |pat| <= |rest| {
      assert ([c] + rest)[i + 1..i + 1 + |pat|] == rest[i..i + |pat|];
    }
  }

  /**
   * A trailing copy of `pat` that no earlier occurrence overlaps is removed and
   * the prefix before it survives intact ("PushEvent" becomes "Push").
   */
  lemma RemoveTrailing(a: string, pat: string)
    requires |pat| > 0
    requires forall i :: 0 <= i < |a| ==> !OccursAt(a + pat, pat, i)
    ensures RemoveOccurrences(a + pat, pat) == a
  {
    assert a + pat + [] == a + pat;
    RemoveFirst(a, [], pat);
  }

  /** The character for a digit value 0..9. */
  function DigitChar(d: nat): (c: char)
    requires d < 10
    ensures IsDigit(c) && c as int - '0' as int == d
  {
    ('0' as int + d) as char
  }

  /** Decimal rendering of a natural number, as `"\(n)"` produces it. */
  function DecimalString(n: nat): (s: string)
    ensures |s| > 0
    ensures forall i :: 0 <= i < |s| ==> IsDigit(s[i])
    ensures |s| > 1 ==> s[0] != '0'
  {
    if n < 10 then [DigitChar(n)]
    else DecimalString(n / 10) + [DigitChar(n % 10)]
  }

  /** Reads a string of decimal digits back as the number it denotes. */
  function ParseDecimal(s: string): nat
    requires forall i :: 0 <= i < |s| ==> IsDigit(s[i])
  {
    if s == [] then 0
    else
      assert IsDigit(s[|s| - 1]);
      ParseDecimal(s[..|s| - 1]) * 10 + (s[|s| - 1] as int - '0' as int)
  }

  /** Parsing the decimal rendering of `n` gives back `n`. */
  lemma {:induction false} DecimalRoundTrip(n: nat)
    ensures ParseDecimal(DecimalString(n)) == n
  {
    var s := DecimalString(n);
    if n >= 10 {
      DecimalRoundTrip(n / 10);
      assert s[..|s| - 1] == DecimalString(n / 10);
    }
  }

  /** Distinct numbers have distinct renderings. */
  lemma DecimalInjective(m: nat, n: nat)
    requires DecimalString(m) == DecimalString(n)
    ensures m == n
  {
    DecimalRoundTrip(m);
    DecimalRoundTrip(n);
  }
}
