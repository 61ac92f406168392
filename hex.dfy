/**
 * The hash string of an icon: `BitConverter.ToString(hash)` (upper-case byte
 * pairs separated by '-'), then `Replace("-", "")`, then `ToLowerInvariant()`.
 * The three steps are modelled one by one and proved equal to a direct
 * lower-case hex encoding, which a decoder inverts.
 */
module Hex {
  import opened Text

  newtype byte = x: int | 0 <= x < 256

  function UpperDigit(d: nat): (c: char)
    requires d < 16
    ensures '0' <= c <= '9' || 'A' <= c <= 'F'
  {
    if d < 10 then ('0' as int + d) as char else ('A' as int + d - 10) as char
  }

  function LowerDigit(d: nat): (c: char)
    requires d < 16
    ensures IsLowerHex(c)
  {
    if d < 10 then ('0' as int + d) as char else ('a' as int + d - 10) as char
  }

  predicate IsLowerHex(c: char) {
    '0' <= c <= '9' || 'a' <= c <= 'f'
  }

  function LowerDigitValue(c: char): (d: nat)
    requires IsLowerHex(c)
    ensures d < 16
  {
    if '0' <= c <= '9' then c as int - '0' as int else c as int - 'a' as int + 10
  }

  /** One byte as BitConverter writes it: two upper-case hex digits. */
  function UpperPair(b: byte): string {
    [UpperDigit(b as int / 16), UpperDigit(b as int % 16)]
  }

  function LowerPair(b: byte): string {
    [LowerDigit(b as int / 16), LowerDigit(b as int % 16)]
  }

  /** `BitConverter.ToString`: the bytes' upper-case pairs, separated by '-'. */
  function BitConverterToString(bs: seq<byte>): (s: string)
    ensures |s| == if bs == [] then 0 else 3 * |bs| - 1
  {
    if bs == [] then ""
    else if |bs| == 1 then UpperPair(bs[0])
    else UpperPair(bs[0]) + "-" + BitConverterToString(bs[1..])
  }

  /** In BitConverter's text every third character, and only it, is a separator. */
  lemma {:induction false} BitConverterDashes(bs: seq<byte>)
    ensures forall i :: 0 <= i < |BitConverterToString(bs)| ==> (BitConverterToString(bs)[i] == '-' <==> i % 3 == 2)
  {
    if |bs| == 1 {
      var p := UpperPair(bs[0]);
      assert BitConverterToString(bs) == p && p[0] != '-' && p[1] != '-';
    } else if |bs| > 1 {
      var p, rest := UpperPair(bs[0]), BitConverterToString(bs[1..]);
      BitConverterDashes(bs[1..]);
      var s := p + "-" + rest;
      assert BitConverterToString(bs) == s;
      forall i | 0 <= i < |s|
        ensures s[i] == '-' <==> i % 3 == 2
      {
        if i < 2 {
          assert s[i] == p[i] != '-';
          assert i % 3 != 2;
        } else if i == 2 {
          assert s[i] == '-';
        } else {
          assert s[i] == rest[i - 3];
          assert rest[i - 3] == '-' <==> (i - 3) % 3 == 2;
          assert i % 3 == (i - 3) % 3;
        }
      }
    }
  }

  /** `Replace("-", "")`: every '-' removed, everything else kept in order. */
  function RemoveDashes(s: string): (r: string)
    ensures '-' !in r
    ensures |r| <= |s|
  {
    if s == [] then ""
    else (if s[0] == '-' then "" else [s[0]]) + RemoveDashes(s[1..])
  }

  /** The bytes as lower-case hex, two digits per byte, no separators. */
  function HexLower(bs: seq<byte>): (s: string)
    ensures |s| == 2 * |bs|
    ensures forall i :: 0 <= i < |s| ==> IsLowerHex(s[i])
  {
    if bs == [] then "" else LowerPair(bs[0]) + HexLower(bs[1..])
  }

  /** Reads pairs of lower-case hex digits back into bytes. */
  function HexDecode(s: string): seq<byte>
    requires forall i :: 0 <= i < |s| ==> IsLowerHex(s[i])
  {
    if |s| < 2 then []
    else [(LowerDigitValue(s[0]) * 16 + LowerDigitValue(s[1])) as byte] + HexDecode(s[2..])
  }

  /**
   * The hash string of a hash, computed the way the icon resolver computes it;
   * it comes out as plain lower-case hex, two digits per byte.
   */
  function HashString(hash: seq<byte>): (h: string)
    ensures h == HexLower(hash)
  {
    ThreeStepsAreHexLower(hash);
    AsciiLower(RemoveDashes(BitConverterToString(hash)))
  }

  lemma {:induction false} RemoveDashesAppend(a: string, b: string)
    ensures RemoveDashes(a + b) == RemoveDashes(a) + RemoveDashes(b)
  {
    if a == [] {
      assert a + b == b;
    } else {
      assert (a + b)[1..] == a[1..] + b;
      RemoveDashesAppend(a[1..], b);
    }
  }

  lemma UpperPairFacts(b: byte)
    ensures RemoveDashes(UpperPair(b)) == UpperPair(b)
    ensures AsciiLower(UpperPair(b)) == LowerPair(b)
  {
    var p := UpperPair(b);
    assert RemoveDashes(p[1..]) == p[1..];
  }

  /** The three-step .NET pipeline is exactly lower-case hex without separators. */
  lemma {:induction false} ThreeStepsAreHexLower(hash: seq<byte>)
    ensures AsciiLower(RemoveDashes(BitConverterToString(hash))) == HexLower(hash)
  {
    if hash == [] {
    } else if |hash| == 1 {
      UpperPairFacts(hash[0]);
      assert HexLower(hash) == LowerPair(hash[0]) + HexLower([]);
    } else {
      var p, rest := UpperPair(hash[0]), BitConverterToString(hash[1..]);
      UpperPairFacts(hash[0]);
      RemoveDashesAppend(p + "-", rest);
      RemoveDashesAppend(p, "-");
      assert RemoveDashes("-") == "";
      AsciiLowerAppend(p, RemoveDashes(rest));
      ThreeStepsAreHexLower(hash[1..]);
    }
  }

  lemma LowerPairDecodes(b: byte)
    ensures LowerDigitValue(LowerPair(b)[0]) * 16 + LowerDigitValue(LowerPair(b)[1]) == b as int
  {
  }

  /** Decoding the lower-case hex of a hash gives the hash back. */
  lemma {:induction false} HexLowerRoundTrip(bs: seq<byte>)
    ensures HexDecode(HexLower(bs)) == bs
  {
    if bs != [] {
      var s := HexLower(bs);
      assert s[2..] == HexLower(bs[1..]);
      LowerPairDecodes(bs[0]);
      HexLowerRoundTrip(bs[1..]);
    }
  }

  /** Distinct hashes have distinct hash strings, so a hash string names one icon hash. */
  lemma HashStringInjective(h1: seq<byte>, h2: seq<byte>)
    requires HashString(h1) == HashString(h2)
    ensures h1 == h2
  {
    HexLowerRoundTrip(h1);
    HexLowerRoundTrip(h2);
  }

}
