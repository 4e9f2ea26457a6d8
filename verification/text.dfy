/** String primitives of the .NET base library that the client relies on,
    stated on Dafny strings (sequences of Unicode scalar values).

    Culture-sensitive operations (`ToUpper`, `ToLower`, `IndexOf(string)`,
    `long.ToString()`) are modelled by their invariant-culture, ordinal
    behaviour: ASCII case mapping, character search and an optional leading
    `-` followed by decimal digits. */
module Text {

  predicate IsUpperAscii(c: char) { 'A' <= c <= 'Z' }

  predicate IsLowerAscii(c: char) { 'a' <= c <= 'z' }

  predicate IsDigit(c: char) { '0' <= c <= '9' }

  /** The characters `long.ToString()` can produce. */
  predicate IsNumeric(c: char) { c == '-' || IsDigit(c) }

  // ---------------------------------------------------------------------
  // Case mapping (`String.ToUpper`, `String.ToLower`)
  // ---------------------------------------------------------------------

  function UpperChar(c: char): char
  {
    if IsLowerAscii(c) then (c as int - 32) as char else c
  }

  function LowerChar(c: char): char
  {
    if IsUpperAscii(c) then (c as int + 32) as char else c
  }

  /** Ordinal `ToUpper`. */
  function ToUpper(s: string): (r: string)
    ensures |r| == |s|
  {
    seq(|s|, i requires 0 <= i < |s| => UpperChar(s[i]))
  }

  /** Ordinal `ToLower`. */
  function ToLower(s: string): (r: string)
    ensures |r| == |s|
  {
    seq(|s|, i requires 0 <= i < |s| => LowerChar(s[i]))
  }

  /** `ToUpper` raises every lower-case letter, keeps everything else, and
      lowering a raised letter gives it back. */
  lemma ToUpperMapsCase(s: string)
    ensures forall i :: 0 <= i < |s| ==> !IsLowerAscii(ToUpper(s)[i])
    ensures forall i :: 0 <= i < |s| && !IsLowerAscii(s[i]) ==> ToUpper(s)[i] == s[i]
    ensures forall i :: 0 <= i < |s| && IsLowerAscii(s[i]) ==>
              IsUpperAscii(ToUpper(s)[i]) && LowerChar(ToUpper(s)[i]) == s[i]
  {
  }

  /** `ToLower` lowers every upper-case letter, keeps everything else, and
      raising a lowered letter gives it back. */
  lemma ToLowerMapsCase(s: string)
    ensures forall i :: 0 <= i < |s| ==> !IsUpperAscii(ToLower(s)[i])
    ensures forall i :: 0 <= i < |s| && !IsUpperAscii(s[i]) ==> ToLower(s)[i] == s[i]
    ensures forall i :: 0 <= i < |s| && IsUpperAscii(s[i]) ==>
              IsLowerAscii(ToLower(s)[i]) && UpperChar(ToLower(s)[i]) == s[i]
  {
  }

  /** Upper-casing leaves a string without lower-case letters unchanged. */
  lemma ToUpperFixesUpper(s: string)
    requires forall i :: 0 <= i < |s| ==> !IsLowerAscii(s[i])
    ensures ToUpper(s) == s
  {
  }

  /** Lower-casing works character by character, so it distributes over
      concatenation. */
  lemma ToLowerConcat(a: string, b: string)
    ensures ToLower(a + b) == ToLower(a) + ToLower(b)
  {
  }

  // ---------------------------------------------------------------------
  // Ordinal search (`String.Contains`, `String.IndexOf`)
  // ---------------------------------------------------------------------

  /** `p` occurs in `s` as a contiguous run starting at index `i`. */
  ghost predicate OccursAt(s: string, p: string, i: int)
  {
    0 <= i && i + |p| <= |s| && s[i..i + |p|] == p
  }

  /** Ordinal substring test, scanning start positions left to right. */
  function Contains(s: string, p: string): (b: bool)
    ensures b <==> exists i :: OccursAt(s, p, i)
    decreases |s|
  {
    if |p| <= |s| && s[..|p|] == p then
      assert OccursAt(s, p, 0);
      true
    else if |s| == 0 then
      false
    else
      var b := Contains(s[1..], p);
      assert !OccursAt(s, p, 0);
      assert b ==> exists i :: OccursAt(s, p, i) by {
        if b {
          var j :| OccursAt(s[1..], p, j);
          OccursAtShift(s, p, j);
        }
      }
      assert (exists i :: OccursAt(s, p, i)) ==> b by {
        if exists i :: OccursAt(s, p, i) {
          var i :| OccursAt(s, p, i);
          OccursAtShift(s, p, i - 1);
        }
      }
      b
  }

  /** An occurrence in the tail is an occurrence one place further on. */
  lemma OccursAtShift(s: string, p: string, j: int)
    requires |s| > 0 && 0 <= j
    ensures OccursAt(s[1..], p, j) <==> OccursAt(s, p, j + 1)
  {
    if j + 1 + |p| <= |s| {
      assert s[1..][j..j + |p|] == s[j + 1..j + 1 + |p|];
    }
  }

  /** Whatever surrounds it, a string contains each of its own parts. */
  lemma ContainsPart(a: string, p: string, b: string)
    ensures Contains(a + p + b, p)
  {
    assert (a + p + b)[|a|..|a| + |p|] == p;
    assert OccursAt(a + p + b, p, |a|);
  }

  /** Each of three consecutive parts occurs in the whole. */
  lemma ContainsEachPart(a: string, p: string, q: string, t: string, b: string)
    ensures Contains(a + p + q + t + b, p)
    ensures Contains(a + p + q + t + b, q)
    ensures Contains(a + p + q + t + b, t)
  {
    var w := a + p + q + t + b;
    assert w == a + p + (q + t + b);
    ContainsPart(a, p, q + t + b);
    assert w == (a + p) + q + (t + b);
    ContainsPart(a + p, q, t + b);
    ContainsPart(a + p + q, t, b);
  }

  /** Ordinal `IndexOf`: the position of the first `c` in `s`, or -1. */
  function IndexOf(s: string, c: char): (r: int)
    ensures r == -1 <==> c !in s
    ensures r != -1 ==> 0 <= r < |s| && s[r] == c && c !in s[..r]
  {
    if |s| == 0 then -1
    else if s[0] == c then 0
    else
      var k := IndexOf(s[1..], c);
      if k == -1 then -1
      else
        assert s[..k + 1] == [s[0]] + s[1..][..k];
        k + 1
  }

  // ---------------------------------------------------------------------
  // Decimal rendering (`long.ToString()`, `int.ToString()`)
  // ---------------------------------------------------------------------

  function DigitChar(d: nat): char
    requires d < 10
  {
    ('0' as int + d) as char
  }

  function DigitValue(c: char): nat
    requires IsDigit(c)
  {
    c as int - '0' as int
  }

  /** Most significant digit first, no leading zeros. */
  function NatToDecimal(n: nat): (s: string)
    ensures |s| >= 1
    ensures forall i :: 0 <= i < |s| ==> IsDigit(s[i])
    ensures s[0] == '0' ==> n == 0 && s == "0"
  {
    if n < 10 then [DigitChar(n)]
    else NatToDecimal(n / 10) + [DigitChar(n % 10)]
  }

  /** The invariant-culture decimal rendering of an integer. */
  function Decimal(n: int): (s: string)
    ensures |s| >= 1
    ensures forall i :: 0 <= i < |s| ==> IsNumeric(s[i])
    ensures n >= 0 <==> IsDigit(s[0])
    ensures s[0] == '0' ==> s == "0"
    ensures s[0] == '-' ==> |s| > 1 && s[1] != '0'
  {
    if n < 0 then "-" + NatToDecimal(-n) else NatToDecimal(n)
  }

  /** Reads back a string of decimal digits. */
  function ParseNat(s: string): nat
    requires forall i :: 0 <= i < |s| ==> IsDigit(s[i])
  {
    if |s| == 0 then 0
    else 10 * ParseNat(s[..|s| - 1]) + DigitValue(s[|s| - 1])
  }

  /** Reads back what `Decimal` writes: an optional `-` and then digits. */
  predicate IsDecimalText(s: string)
  {
    if |s| > 0 && s[0] == '-' then forall i :: 1 <= i < |s| ==> IsDigit(s[i])
    else forall i :: 0 <= i < |s| ==> IsDigit(s[i])
  }

  function ParseDecimal(s: string): int
    requires IsDecimalText(s)
  {
    if |s| > 0 && s[0] == '-' then -(ParseNat(s[1..]) as int) else ParseNat(s)
  }

  lemma {:induction false} ParseNatRoundTrip(n: nat)
    ensures ParseNat(NatToDecimal(n)) == n
  {
    if n >= 10 {
      var s := NatToDecimal(n);
      assert s[..|s| - 1] == NatToDecimal(n / 10);
      ParseNatRoundTrip(n / 10);
    }
  }

  /** Decimal rendering can be read back, so it loses nothing. */
  lemma ParseDecimalRoundTrip(n: int)
    ensures IsDecimalText(Decimal(n))
    ensures ParseDecimal(Decimal(n)) == n
  {
    if n < 0 {
      assert Decimal(n)[1..] == NatToDecimal(-n);
      ParseNatRoundTrip(-n);
    } else {
      ParseNatRoundTrip(n);
    }
  }

  /** Distinct integers have distinct decimal renderings. */
  lemma DecimalInjective(m: int, n: int)
    requires Decimal(m) == Decimal(n)
    ensures m == n
  {
    ParseDecimalRoundTrip(m);
    ParseDecimalRoundTrip(n);
  }
}
