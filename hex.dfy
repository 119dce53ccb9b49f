/** Bytes and Node's `'hex'` encoding (`Buffer#toString('hex')`, `Buffer.from(s, 'hex')`). */
module Hex {
  import Text

  type byte = b: int | 0 <= b < 256

  function HexDigit(d: nat): char
    requires d < 16
  {
    "0123456789abcdef"[d]
  }

  predicate IsLowerHexChar(c: char) {
    '0' <= c <= '9' || 'a' <= c <= 'f'
  }

  /** Value of one hex digit, either case; -1 when `c` is not a hex digit. */
  function HexValue(c: char): (v: int)
    ensures -1 <= v < 16
  {
    if '0' <= c <= '9' then c as int - '0' as int
    else if 'a' <= c <= 'f' then c as int - 'a' as int + 10
    else if 'A' <= c <= 'F' then c as int - 'A' as int + 10
    else -1
  }

  /** `buf.toString('hex')`: two lower-case digits per byte, high nibble first. */
  function ToHex(bs: seq<byte>): (r: string)
    ensures |r| == 2 * |bs|
    ensures forall k :: 0 <= k < |r| ==> IsLowerHexChar(r[k])
  {
    if bs == [] then ""
    else [HexDigit(bs[0] / 16), HexDigit(bs[0] % 16)] + ToHex(bs[1..])
  }

  /** `Buffer.from(s, 'hex')`: decodes digit pairs and stops at the first pair
      that is not two hex digits; an odd trailing digit is dropped. */
  function FromHex(s: string): (r: seq<byte>)
    ensures |r| <= |s| / 2
    decreases |s|
  {
    if |s| < 2 || HexValue(s[0]) < 0 || HexValue(s[1]) < 0 then []
    else [HexValue(s[0]) * 16 + HexValue(s[1])] + FromHex(s[2..])
  }

  lemma HexValueOfDigit(d: nat)
    requires d < 16
    ensures HexValue(HexDigit(d)) == d
  {
  }

  /** Decoding undoes encoding. */
  lemma {:induction false} FromHexToHex(bs: seq<byte>)
    ensures FromHex(ToHex(bs)) == bs
  {
    if bs != [] {
      var hi, lo := bs[0] / 16, bs[0] % 16;
      var s := ToHex(bs);
      assert s == [HexDigit(hi), HexDigit(lo)] + ToHex(bs[1..]);
      assert s[2..] == ToHex(bs[1..]);
      HexValueOfDigit(hi);
      HexValueOfDigit(lo);
      assert HexValue(s[0]) * 16 + HexValue(s[1]) == bs[0];
      FromHexToHex(bs[1..]);
      assert [bs[0]] + bs[1..] == bs;
    }
  }

  /** Encoding is injective: distinct byte strings have distinct hex forms. */
  lemma ToHexInjective(a: seq<byte>, b: seq<byte>)
    requires ToHex(a) == ToHex(b)
    ensures a == b
  {
    FromHexToHex(a);
    FromHexToHex(b);
  }

  /** A hex string never contains the `:` that separates salt from digest. */
  lemma ToHexHasNoColon(bs: seq<byte>)
    ensures ':' !in ToHex(bs)
  {
  }

  /** `buf.toString('hex').toUpperCase()` */
  function ToUpperHex(bs: seq<byte>): (r: string)
    ensures |r| == 2 * |bs|
    ensures forall k :: 0 <= k < |r| ==> '0' <= r[k] <= '9' || 'A' <= r[k] <= 'F'
  {
    var h := ToHex(bs);
    assert forall k :: 0 <= k < |h| ==> IsLowerHexChar(h[k]);
    Text.Upper(h)
  }

  lemma ToUpperHexInjective(a: seq<byte>, b: seq<byte>)
    requires ToUpperHex(a) == ToUpperHex(b)
    ensures a == b
  {
    var ha, hb := ToHex(a), ToHex(b);
    forall k | 0 <= k < |ha|
      ensures ha[k] == hb[k]
    {
      assert Text.UpperChar(ha[k]) == ToUpperHex(a)[k] == ToUpperHex(b)[k] == Text.UpperChar(hb[k]);
      assert IsLowerHexChar(ha[k]) && IsLowerHexChar(hb[k]);
    }
    ToHexInjective(a, b);
  }
}
