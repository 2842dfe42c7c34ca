/** `ByteArray.decodeByteArrayToHexString()`: each byte as two upper-case hex digits (`%02X`). */
module HexString {

  import opened Wrappers
  import opened Bytes

  const HexDigits: string := "0123456789ABCDEF"

  /** `String.format("%02X", b)`: the unsigned value of `b` as two upper-case hex digits. */
  function HexPair(b: Byte): (r: string)
    ensures |r| == 2 && r[0] in HexDigits && r[1] in HexDigits
  {
    var u := Unsigned(b);
    [HexDigits[u / 16], HexDigits[u % 16]]
  }

  /** The string the loop builds: the hex pairs of the bytes, in input order. */
  function Hex(bs: Bytes): (r: string)
    ensures |r| == 2 * |bs|
  {
    if bs == [] then ""
    else Hex(bs[..|bs| - 1]) + HexPair(bs[|bs| - 1])
  }

  /** Appending a byte appends its pair to the hex string. */
  lemma HexSnoc(q: Bytes, b: Byte)
    ensures Hex(q + [b]) == Hex(q) + HexPair(b)
  {
    assert (q + [b])[..|q|] == q;
  }

  /** Characters 2i and 2i+1 are byte i's pair, and every character is an upper-case hex digit. */
  lemma {:induction false} HexAt(bs: Bytes)
    ensures forall i :: 0 <= i < |bs| ==> Hex(bs)[2 * i] == HexPair(bs[i])[0] && Hex(bs)[2 * i + 1] == HexPair(bs[i])[1]
    ensures forall i :: 0 <= i < |Hex(bs)| ==> Hex(bs)[i] in HexDigits
  {
    if bs != [] {
      var q, b := bs[..|bs| - 1], bs[|bs| - 1];
      assert bs == q + [b];
      HexSnoc(q, b);
      HexAt(q);
      var prefix, pair, r := Hex(q), HexPair(b), Hex(bs);
      forall i | 0 <= i < |bs|
        ensures r[2 * i] == HexPair(bs[i])[0] && r[2 * i + 1] == HexPair(bs[i])[1]
      {
        if i < |q| {
          assert q[i] == bs[i];
          assert r[2 * i] == prefix[2 * i] && r[2 * i + 1] == prefix[2 * i + 1];
        } else {
          assert r[2 * i] == pair[0] && r[2 * i + 1] == pair[1];
        }
      }
      forall i | 0 <= i < |r|
        ensures r[i] in HexDigits
      {
        if i < |prefix| {
          assert r[i] == prefix[i];
        } else {
          assert r[i] == pair[i - |prefix|];
        }
      }
    }
  }

  /** The value of an upper-case hex digit, if it is one. */
  function DigitValue(c: char): (v: Option<nat>)
    ensures v.Some? <==> c in HexDigits
    ensures v.Some? ==> v.value < 16 && HexDigits[v.value] == c
  {
    if '0' <= c <= '9' then Some(c as int - '0' as int)
    else if 'A' <= c <= 'F' then Some(c as int - 'A' as int + 10)
    else None
  }

  lemma DigitValueOfDigit(k: nat)
    requires k < 16
    ensures DigitValue(HexDigits[k]) == Some(k)
  {
  }

  /** Reads back a string of upper-case hex pairs; None when it is not one. */
  function ParseHex(s: string): (r: Option<Bytes>)
    ensures r.Some? ==> 2 * |r.value| == |s|
  {
    if s == [] then Some([])
    else if |s| < 2 then None
    else
      var n := |s| - 2;
      match (ParseHex(s[..n]), DigitValue(s[n]), DigitValue(s[n + 1]))
      case (Some(prefix), Some(hi), Some(lo)) => Some(prefix + [FromUnsigned(16 * hi + lo)])
      case _ => None
  }

  /** A hex pair's two digits read back as the byte's high and low nibble. */
  lemma HexPairDigits(b: Byte)
    ensures DigitValue(HexPair(b)[0]) == Some(Unsigned(b) / 16)
    ensures DigitValue(HexPair(b)[1]) == Some(Unsigned(b) % 16)
    ensures FromUnsigned(16 * (Unsigned(b) / 16) + Unsigned(b) % 16) == b
  {
    var u := Unsigned(b);
    DigitValueOfDigit(u / 16);
    DigitValueOfDigit(u % 16);
    UnsignedRoundTrip(b);
  }

  /** Reading one more hex pair appends its byte. */
  lemma ParseHexAppendPair(p: string, q: Bytes, b: Byte)
    requires ParseHex(p) == Some(q)
    ensures ParseHex(p + HexPair(b)) == Some(q + [b])
  {
    var s := p + HexPair(b);
    var n := |s| - 2;
    assert s[..n] == p;
    assert s[n] == HexPair(b)[0] && s[n + 1] == HexPair(b)[1];
    HexPairDigits(b);
  }

  /** Decoding the hex string gives back the bytes: no two byte arrays share a hex string. */
  lemma {:induction false} ParseHexOfHex(bs: Bytes)
    ensures ParseHex(Hex(bs)) == Some(bs)
  {
    if bs != [] {
      var q, b := bs[..|bs| - 1], bs[|bs| - 1];
      assert bs == q + [b];
      ParseHexOfHex(q);
      HexSnoc(q, b);
      ParseHexAppendPair(Hex(q), q, b);
    }
  }

  /** The source's loop: appends each byte's hex pair to a growing string. */
  method DecodeByteArrayToHexString(bytes: Bytes) returns (str: string)
    ensures str == Hex(bytes)
    ensures |str| == 2 * |bytes|
    ensures ParseHex(str) == Some(bytes)
  {
    str := "";
    var i := 0;
    while i < |bytes|
      invariant 0 <= i <= |bytes|
      invariant str == Hex(bytes[..i])
    {
      assert bytes[..i + 1][..i] == bytes[..i];
      str := str + HexPair(bytes[i]);
      i := i + 1;
    }
    assert bytes[..i] == bytes;
    ParseHexOfHex(bytes);
  }
}
