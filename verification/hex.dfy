/** Rendering of a hash as text, as the signer does it: `BitConverter.ToString`
    (upper-case byte pairs joined by `-`), then `Replace("-", "")`, then
    `ToLower()`. The module proves that pipeline equal to plain lower-case
    hexadecimal and that the rendering can be decoded again. */
module Hex {
  import opened Wrappers
  import opened Text

  predicate IsLowerHexDigit(c: char) { IsDigit(c) || 'a' <= c <= 'f' }

  function UpperHexDigit(d: nat): char
    requires d < 16
  {
    if d < 10 then DigitChar(d) else ('A' as int + d - 10) as char
  }

  function LowerHexDigit(d: nat): (c: char)
    requires d < 16
    ensures IsLowerHexDigit(c)
  {
    if d < 10 then DigitChar(d) else ('a' as int + d - 10) as char
  }

  function HexValue(c: char): (d: nat)
    requires IsLowerHexDigit(c)
    ensures d < 16
  {
    if IsDigit(c) then DigitValue(c) else c as int - 'a' as int + 10
  }

  /** Reading a digit back gives the nibble it was written from. */
  lemma HexValueOfDigit(d: nat)
    requires d < 16
    ensures HexValue(LowerHexDigit(d)) == d
  {
  }

  // ---------------------------------------------------------------------
  // The rendering as the source writes it
  // ---------------------------------------------------------------------

  function UpperPair(b: byte): string
  {
    [UpperHexDigit(b / 16), UpperHexDigit(b % 16)]
  }

  /** `BitConverter.ToString(bytes)`: `""` for no bytes, otherwise one
      upper-case pair per byte with `-` between neighbours. */
  function BitConverterToString(bs: seq<byte>): (s: string)
    ensures |bs| > 0 ==> |s| == 3 * |bs| - 1
    ensures |bs| == 0 ==> s == ""
  {
    if |bs| == 0 then ""
    else if |bs| == 1 then UpperPair(bs[0])
    else UpperPair(bs[0]) + "-" + BitConverterToString(bs[1..])
  }

  /** Byte `k` becomes the upper-case pair at characters `3k` and `3k+1`,
      followed by a `-` unless it is the last byte. */
  lemma {:induction false} BitConverterToStringAt(bs: seq<byte>, k: nat)
    requires k < |bs|
    ensures BitConverterToString(bs)[3 * k] == UpperHexDigit(bs[k] / 16)
    ensures BitConverterToString(bs)[3 * k + 1] == UpperHexDigit(bs[k] % 16)
    ensures k + 1 < |bs| ==> BitConverterToString(bs)[3 * k + 2] == '-'
  {
    if k > 0 {
      BitConverterToStringAt(bs[1..], k - 1);
      assert BitConverterToString(bs)[3..] == BitConverterToString(bs[1..]);
    }
  }

  /** `s.Replace("-", string.Empty)`. */
  function RemoveDashes(s: string): (r: string)
    ensures '-' !in r
    ensures |r| <= |s|
    ensures '-' !in s ==> r == s
    ensures multiset(r) == multiset(s)['-' := 0]
  {
    if |s| == 0 then ""
    else
      assert s == [s[0]] + s[1..];
      (if s[0] == '-' then "" else [s[0]]) + RemoveDashes(s[1..])
  }

  /** The digest text the signer returns for a hash. */
  function RenderDigest(hash: seq<byte>): string
  {
    ToLower(RemoveDashes(BitConverterToString(hash)))
  }

  // ---------------------------------------------------------------------
  // Reference definition: lower-case hex, high nibble first
  // ---------------------------------------------------------------------

  function LowerHex(bs: seq<byte>): (s: string)
    ensures |s| == 2 * |bs|
    ensures forall i :: 0 <= i < |s| ==> IsLowerHexDigit(s[i])
  {
    if |bs| == 0 then ""
    else LowerPair(bs[0]) + LowerHex(bs[1..])
  }

  function LowerPair(b: byte): (s: string)
    ensures |s| == 2 && IsLowerHexDigit(s[0]) && IsLowerHexDigit(s[1])
  {
    [LowerHexDigit(b / 16), LowerHexDigit(b % 16)]
  }

  /** Byte `k` of the hash becomes characters `2k` (high nibble) and `2k+1`
      (low nibble) of the rendering. */
  lemma {:induction false} LowerHexAt(bs: seq<byte>, k: nat)
    requires k < |bs|
    ensures LowerHex(bs)[2 * k] == LowerHexDigit(bs[k] / 16)
    ensures LowerHex(bs)[2 * k + 1] == LowerHexDigit(bs[k] % 16)
  {
    if k > 0 {
      LowerHexAt(bs[1..], k - 1);
      assert LowerHex(bs)[2..] == LowerHex(bs[1..]);
    }
  }

  /** Reads lower-case hex back into bytes, two digits per byte. */
  function DecodeLowerHex(s: string): seq<byte>
    requires |s| % 2 == 0
    requires forall i :: 0 <= i < |s| ==> IsLowerHexDigit(s[i])
  {
    if |s| == 0 then []
    else [16 * HexValue(s[0]) + HexValue(s[1])] + DecodeLowerHex(s[2..])
  }

  // ---------------------------------------------------------------------
  // Properties
  // ---------------------------------------------------------------------

  lemma {:induction false} RemoveDashesConcat(a: string, b: string)
    ensures RemoveDashes(a + b) == RemoveDashes(a) + RemoveDashes(b)
  {
    if |a| > 0 {
      assert (a + b)[1..] == a[1..] + b;
      RemoveDashesConcat(a[1..], b);
    } else {
      assert a + b == b;
    }
  }

  lemma UpperPairLowered(b: byte)
    ensures RemoveDashes(UpperPair(b)) == UpperPair(b)
    ensures ToLower(UpperPair(b)) == LowerPair(b)
  {
    var pair := UpperPair(b);
    assert pair[0] != '-' && pair[1] != '-';
    assert ToLower(pair)[0] == LowerPair(b)[0];
    assert ToLower(pair)[1] == LowerPair(b)[1];
  }

  /** Dashes vanish and each pair survives: the text before lower-casing is
      the pairs laid end to end. */
  lemma {:induction false} RemoveDashesOfBitConverter(hash: seq<byte>)
    requires |hash| > 1
    ensures RemoveDashes(BitConverterToString(hash))
         == UpperPair(hash[0]) + RemoveDashes(BitConverterToString(hash[1..]))
  {
    var pair := UpperPair(hash[0]);
    var tail := BitConverterToString(hash[1..]);
    assert BitConverterToString(hash) == pair + ("-" + tail);
    RemoveDashesConcat(pair, "-" + tail);
    RemoveDashesConcat("-", tail);
    assert RemoveDashes("-") == "" by {
      assert "-"[1..] == "";
    }
    UpperPairLowered(hash[0]);
    calc {
      RemoveDashes(pair + ("-" + tail));
      RemoveDashes(pair) + RemoveDashes("-" + tail);
      pair + ("" + RemoveDashes(tail));
      { assert "" + RemoveDashes(tail) == RemoveDashes(tail); }
      pair + RemoveDashes(tail);
    }
  }

  /** The source's three-step rendering is exactly lower-case hex. */
  lemma {:induction false} RenderDigestIsLowerHex(hash: seq<byte>)
    ensures RenderDigest(hash) == LowerHex(hash)
  {
    if |hash| == 1 {
      UpperPairLowered(hash[0]);
      assert LowerHex(hash) == LowerPair(hash[0]) + "";
    } else if |hash| > 1 {
      var pair := UpperPair(hash[0]);
      var rest := RemoveDashes(BitConverterToString(hash[1..]));
      RemoveDashesOfBitConverter(hash);
      ToLowerConcat(pair, rest);
      UpperPairLowered(hash[0]);
      RenderDigestIsLowerHex(hash[1..]);
      assert ToLower(pair + rest) == LowerPair(hash[0]) + LowerHex(hash[1..]);
    }
  }

  /** Decoding undoes the rendering. */
  lemma {:induction false} DecodeLowerHexRoundTrip(bs: seq<byte>)
    ensures DecodeLowerHex(LowerHex(bs)) == bs
  {
    if |bs| > 0 {
      var s := LowerHex(bs);
      assert s[..2] == LowerPair(bs[0]);
      assert s[2..] == LowerHex(bs[1..]);
      HexValueOfDigit(bs[0] / 16);
      HexValueOfDigit(bs[0] % 16);
      DecodeLowerHexRoundTrip(bs[1..]);
      assert bs == [bs[0]] + bs[1..];
    }
  }

  /** Distinct hashes render to distinct digests. */
  lemma LowerHexInjective(a: seq<byte>, b: seq<byte>)
    requires LowerHex(a) == LowerHex(b)
    ensures a == b
  {
    DecodeLowerHexRoundTrip(a);
    DecodeLowerHexRoundTrip(b);
  }
}
