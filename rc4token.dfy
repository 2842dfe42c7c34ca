/**
 * The RC4 plugin's `generateSecureRandomToken`, the generator behind both entries of
 * the shipped crypto table: a string of decimal digits drawn with `nextInt(9)`,
 * returned as its ASCII bytes.
 */
module Rc4Token {

  import opened Bytes
  import opened Plugins
  import opened Constants

  /** The successive results of `SecureRandom.nextInt(9)`. */
  type DigitDraws = nat -> nat

  /** The ASCII byte of the `i`-th digit appended to the token. */
  function DigitByte(draws: DigitDraws, i: nat): (b: Byte)
    ensures '0' as int <= b <= '8' as int
  {
    '0' as int + draws(i) % 9
  }

  /** As written: the loop `for (i in 0..size)` is inclusive and appends `size + 1` digits. */
  function TokenAsWritten(draws: DigitDraws, size: nat): (t: Bytes)
    ensures |t| == size + 1
    ensures forall i :: 0 <= i < |t| ==> '0' as int <= t[i] <= '8' as int
  {
    seq(size + 1, i requires 0 <= i <= size => DigitByte(draws, i))
  }

  /** As written, the OTP challenge requested at 13 bytes comes back with 14, and the 11-byte seed with 12. */
  lemma AsWrittenTokensAreOneByteLong(draws: DigitDraws)
    ensures |TokenAsWritten(draws, OtpChallengeBytesSize)| == 14 != OtpChallengeBytesSize
    ensures |TokenAsWritten(draws, SessionKeyBytesSize)| == 12 != SessionKeyBytesSize
  {
  }

  /** Corrected (`0 until size`): exactly `size` digits. */
  function Token(draws: DigitDraws, size: nat): (t: Bytes)
    ensures |t| == size
    ensures forall i :: 0 <= i < |t| ==> '0' as int <= t[i] <= '8' as int
  {
    seq(size, i requires 0 <= i < size => DigitByte(draws, i))
  }

  /** The digit stream read as an entropy stream of bytes. */
  function AsEntropy(draws: DigitDraws): Entropy
  {
    i => DigitByte(draws, i)
  }

  /**
   * The corrected token is the as-written one without its extra last digit, and it is
   * exactly the requested-length draw the authorization model takes from its entropy stream.
   */
  lemma TokenMeetsRequestedLength(draws: DigitDraws, size: nat)
    ensures Token(draws, size) == TokenAsWritten(draws, size)[..size]
    ensures Token(draws, size) == SecureRandomToken(AsEntropy(draws), 0, size)
  {
    var t, w, s := Token(draws, size), TokenAsWritten(draws, size), SecureRandomToken(AsEntropy(draws), 0, size);
    assert forall i :: 0 <= i < size ==> t[i] == w[i];
    assert forall i :: 0 <= i < size ==> t[i] == s[i];
  }
}
