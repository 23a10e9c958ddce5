/**
 * Lowercase base16 encoding of key bytes, as `Buffer.from(bytes).toString('hex')`
 * produces it: the alphabet of section 8 of RFC 4648 in lower case, two digits per
 * byte, high nibble first.
 */
module Hex {
  import opened Wrappers

  type byte = b: int | 0 <= b < 0x100

  /** The sixteen characters of the alphabet: '0'..'9' then 'a'..'f'. */
  predicate IsDigit(c: char)
  {
    '0' <= c <= '9' || 'a' <= c <= 'f'
  }

  function DigitChar(d: int): (c: char)
    requires 0 <= d < 16
    ensures IsDigit(c)
  {
    if d < 10 then ('0' as int + d) as char else ('a' as int + d - 10) as char
  }

  /** The value of a lowercase hex digit, or None for any other character. */
  function DigitValue(c: char): (r: Option<int>)
    ensures r.Some? <==> IsDigit(c)
    ensures r.Some? ==> 0 <= r.value < 16 && DigitChar(r.value) == c
  {
    if '0' <= c <= '9' then Some(c as int - '0' as int)
    else if 'a' <= c <= 'f' then Some(c as int - 'a' as int + 10)
    else None
  }

  lemma DigitRoundTrip(d: int)
    requires 0 <= d < 16
    ensures DigitValue(DigitChar(d)) == Some(d)
  {
  }

  /** The hex text of `bytes`; two characters per byte. */
  function Encode(bytes: seq<byte>): (s: string)
    ensures |s| == 2 * |bytes|
  {
    if bytes == [] then []
    else [DigitChar(bytes[0] / 16), DigitChar(bytes[0] % 16)] + Encode(bytes[1..])
  }

  predicate IsLowerHex(s: string)
  {
    forall i :: 0 <= i < |s| ==> IsDigit(s[i])
  }

  /** Characters 2i and 2i+1 of the encoding are the high and low nibble of byte i. */
  lemma {:induction false} EncodeAt(bytes: seq<byte>, i: int)
    requires 0 <= i < |bytes|
    ensures Encode(bytes)[2 * i] == DigitChar(bytes[i] / 16)
    ensures Encode(bytes)[2 * i + 1] == DigitChar(bytes[i] % 16)
  {
    if i > 0 {
      EncodeAt(bytes[1..], i - 1);
    }
  }

  lemma EncodeIsLowerHex(bytes: seq<byte>)
    ensures IsLowerHex(Encode(bytes))
  {
    var s := Encode(bytes);
    forall k | 0 <= k < |s|
      ensures IsDigit(s[k])
    {
      EncodeAt(bytes, k / 2);
    }
  }

  /** The inverse of Encode: pairs of lowercase hex digits back to bytes. */
  function Decode(s: string): (r: Option<seq<byte>>)
    ensures r.Some? ==> 2 * |r.value| == |s|
  {
    if |s| < 2 then (if s == [] then Some([]) else None)
    else
      var hi, lo, rest := DigitValue(s[0]), DigitValue(s[1]), Decode(s[2..]);
      if hi.Some? && lo.Some? && rest.Some? then Some([hi.value * 16 + lo.value] + rest.value)
      else None
  }

  lemma NibbleSplit(b: byte)
    ensures 0 <= b / 16 < 16 && 0 <= b % 16 < 16
    ensures (b / 16) * 16 + b % 16 == b
  {
  }

  /** Decoding a two-digit prefix, one step of Decode. */
  lemma DecodePair(hi: int, lo: int, t: string)
    requires 0 <= hi < 16 && 0 <= lo < 16
    ensures Decode([DigitChar(hi), DigitChar(lo)] + t) ==
            if Decode(t).Some? then Some([hi * 16 + lo] + Decode(t).value) else None
  {
    var s := [DigitChar(hi), DigitChar(lo)] + t;
    assert s[0] == DigitChar(hi) && s[1] == DigitChar(lo) && s[2..] == t;
    DigitRoundTrip(hi);
    DigitRoundTrip(lo);
  }

  lemma {:induction false} DecodeEncode(bytes: seq<byte>)
    ensures Decode(Encode(bytes)) == Some(bytes)
  {
    if bytes != [] {
      var b := bytes[0];
      NibbleSplit(b);
      DecodeEncode(bytes[1..]);
      DecodePair(b / 16, b % 16, Encode(bytes[1..]));
      assert [b] + bytes[1..] == bytes;
    }
  }

  lemma {:induction false} EncodeDecode(s: string)
    requires Decode(s).Some?
    ensures Encode(Decode(s).value) == s
  {
    if s != [] {
      EncodeDecode(s[2..]);
      var hi := DigitValue(s[0]).value;
      var lo := DigitValue(s[1]).value;
      var b: byte := hi * 16 + lo;
      assert b / 16 == hi && b % 16 == lo;
      assert Decode(s).value == [b] + Decode(s[2..]).value;
      assert Decode(s).value[1..] == Decode(s[2..]).value;
      assert s == [s[0], s[1]] + s[2..];
    }
  }

  /** Distinct keys give distinct hex strings. */
  lemma EncodeInjective(a: seq<byte>, b: seq<byte>)
    requires Encode(a) == Encode(b)
    ensures a == b
  {
    DecodeEncode(a);
    DecodeEncode(b);
  }
}
