/**
 * Kotlin's signed 8-bit `Byte`, the unsigned reading Java's formatter gives it,
 * and the UTF-8 encoding performed by `String.encodeToByteArray()`.
 */
module Bytes {

  /** A JVM `Byte`: signed, two's complement, 8 bits. */
  type Byte = b: int | -128 <= b < 128

  /** A Kotlin `ByteArray`, seen as a value. */
  type Bytes = seq<Byte>

  /** The value 0..255 a byte stands for: a negative byte is read as `b + 2^8`. */
  function Unsigned(b: Byte): (u: int)
    ensures 0 <= u < 256
    ensures u % 256 == b % 256
  {
    if b < 0 then b + 256 else b
  }

  /** The byte whose unsigned reading is `u` (the truncating `u.toByte()`). */
  function FromUnsigned(u: int): (b: Byte)
    requires 0 <= u < 256
    ensures Unsigned(b) == u
  {
    if u < 128 then u else u - 256
  }

  lemma UnsignedRoundTrip(b: Byte)
    ensures FromUnsigned(Unsigned(b)) == b
  {
  }

  /** The UTF-8 encoding of one Unicode scalar value. */
  function EncodeChar(c: char): (r: Bytes)
    ensures 1 <= |r| <= 4
    ensures |r| == 1 <==> c as int < 0x80
    ensures |r| == 1 ==> r[0] == c as int
    ensures |r| > 1 ==> 0xC0 <= Unsigned(r[0])
    ensures forall i :: 1 <= i < |r| ==> 0x80 <= Unsigned(r[i]) < 0xC0
  {
    var cp := c as int;
    if cp < 0x80 then
      [cp]
    else if cp < 0x800 then
      [FromUnsigned(0xC0 + cp / 0x40), FromUnsigned(0x80 + cp % 0x40)]
    else if cp < 0x1_0000 then
      [FromUnsigned(0xE0 + cp / 0x1000),
       FromUnsigned(0x80 + (cp / 0x40) % 0x40),
       FromUnsigned(0x80 + cp % 0x40)]
    else
      [FromUnsigned(0xF0 + cp / 0x4_0000),
       FromUnsigned(0x80 + (cp / 0x1000) % 0x40),
       FromUnsigned(0x80 + (cp / 0x40) % 0x40),
       FromUnsigned(0x80 + cp % 0x40)]
  }

  /** `s.encodeToByteArray()`: the UTF-8 encoding of a string, character by character. */
  function Encode(s: string): (r: Bytes)
    ensures |s| <= |r| <= 4 * |s|
    ensures s == [] <==> r == []
  {
    if s == [] then [] else EncodeChar(s[0]) + Encode(s[1..])
  }

  predicate IsAscii(s: string)
  {
    forall i :: 0 <= i < |s| ==> s[i] as int < 0x80
  }

  /** Encoding distributes over concatenation, so the encoding of a joined string is the joined encodings. */
  lemma {:induction false} EncodeAppend(s: string, t: string)
    ensures Encode(s + t) == Encode(s) + Encode(t)
  {
    if s == [] {
      assert s + t == t;
    } else {
      assert (s + t)[1..] == s[1..] + t;
      EncodeAppend(s[1..], t);
    }
  }

  /** An ASCII string encodes to one byte per character, the character's own code. */
  lemma {:induction false} EncodeAscii(s: string)
    requires IsAscii(s)
    ensures |Encode(s)| == |s|
    ensures forall i :: 0 <= i < |s| ==> Encode(s)[i] == s[i] as int
  {
    if s != [] {
      assert IsAscii(s[1..]) by {
        forall i | 0 <= i < |s[1..]| ensures s[1..][i] as int < 0x80 {
          assert s[1..][i] == s[i + 1];
        }
      }
      EncodeAscii(s[1..]);
    }
  }
}
