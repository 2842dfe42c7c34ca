/**
 * The cryptographic and authentication plugin interfaces, as values whose operations
 * are left uninterpreted: a concrete plugin is any choice of these functions.
 */
module Plugins {

  import opened Bytes

  /** A `java.security.Key`, seen through its `encoded` bytes. */
  datatype Key = Key(encoded: Bytes)

  /** ICryptographicPlugin. `generateSecureRandomToken` is modelled by `SecureRandomToken` below. */
  datatype CryptoPlugin = CryptoPlugin(
    protocolId: string,
    generateSecretKey: Bytes -> Key,
    encrypt: (Bytes, Bytes) -> Bytes,
    decrypt: (Bytes, Bytes) -> Bytes)

  /** IAuthenticationPlugin. */
  datatype AuthPlugin = AuthPlugin(
    protocolId: string,
    sign: (Bytes, Key) -> Bytes,
    verifySignature: (Bytes, Key, Bytes) -> bool,
    generateHash: Bytes -> Bytes,
    hashSize: int)

  /** A stream of secure random bytes; a token of `size` bytes reads the next `size` of them. */
  type Entropy = nat -> Byte

  /** `generateSecureRandomToken(size)`, drawing from `entropy` at `offset`: exactly `size` bytes. */
  function SecureRandomToken(entropy: Entropy, offset: nat, size: nat): (t: Bytes)
    ensures |t| == size
  {
    seq(size, i requires 0 <= i < size => entropy(offset + i))
  }
}
