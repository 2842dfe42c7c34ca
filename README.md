# ContextNetCore authorization provider, in Dafny

This project models ContextNetCore, the authorization provider of the EdgeSec framework. The provider decides whether a gateway may talk to a smart object. When it may, the provider picks a protocol suite (`<CIPHER>_<MAC1>_<MAC2>`), resolves the crypto and auth plugins for it, and issues an OTP, a session key and a signed authentication package.

Layout:

- `bytes.dfy` (`Bytes`): Kotlin's signed `Byte` and `String.encodeToByteArray()` (UTF-8).
- `strings.dfy` (`Strings`): Kotlin's `split("_")` and its inverse, `Join`.
- `constants.dfy` (`Constants`): the preference-ordered `PROTOCOLS_SUITE_ID` table and the two token sizes.
- `plugins.dfy` (`Plugins`): the crypto and auth plugin interfaces. Their operations are function-valued fields, so a plugin is any choice of functions. Secure randomness is an entropy stream; a token of `size` bytes reads the next `size` bytes of it.
- `hex.dfy` (`HexString`): the hex encoder loop, with a decoder as its inverse.
- `contextnetcore.dfy` (`ContextNetCore`): the lookup tables, suite selection (the loop method and the function it is proved against), plugin lookup, OTP and package layouts, and `authorize`.
- `rc4token.dfy` (`Rc4Token`): the RC4 plugin's token generator, both as written and corrected (see Findings).

The tables are a `Tables` value. `CoreTables` is the shipped instance, and `Valid` is the invariant the `!!` lookups rely on. `authorize` returns a `Granted(response)` / `Denied(message)` value in place of `Pair<Boolean, String>`. On success it returns the `AuthorizationResponse` record itself instead of its JSON text.

The doc comment of `generateAuthPackage` (ContextNetCore.kt:163) says the package holds the generated OTP. The code packages the OTP challenge instead: it encrypts `otpChallenge ++ sessionKey` (ContextNetCore.kt:95, :179). The model follows the code.

## Model

| member | source | states |
|---|---|---|
| Bytes.Unsigned | ContextNetCore/src/main/java/br/pucrio/inf/lac/contextnetcore/ContextNetCore.kt:242 | `%02X` reads a byte as 0..255, congruent to the signed value mod 256 |
| Bytes.EncodeChar | ContextNetCore/src/main/java/br/pucrio/inf/lac/contextnetcore/ContextNetCore.kt:228 | one character encodes to 1..4 UTF-8 bytes: a single byte equal to the code exactly for ASCII, a lead byte of at least 0xC0, and continuation bytes 0x80..0xBF |
| Bytes.Encode | ContextNetCore/src/main/java/br/pucrio/inf/lac/contextnetcore/ContextNetCore.kt:228 | `encodeToByteArray` has between one and four bytes per character, and is empty only for the empty string |
| Bytes.EncodeAppend | ContextNetCore/src/main/java/br/pucrio/inf/lac/contextnetcore/ContextNetCore.kt:228 | encoding a concatenation gives the concatenation of the encodings |
| Bytes.EncodeAscii | ContextNetCore/src/main/java/br/pucrio/inf/lac/contextnetcore/ContextNetCore.kt:21-33 | an ASCII id or key encodes to one byte per character, equal to its code |
| Strings.Split | ContextNetCore/src/main/java/br/pucrio/inf/lac/contextnetcore/ContextNetCore.kt:139 | `split` gives at least one token, and no token contains the delimiter. It gives exactly one token iff the delimiter is absent |
| Strings.JoinSplit | ContextNetCore/src/main/java/br/pucrio/inf/lac/contextnetcore/ContextNetCore.kt:139 | joining the tokens with the delimiter gives back the original string |
| Strings.SplitJoin | ContextNetCore/src/main/java/br/pucrio/inf/lac/contextnetcore/ContextNetCore.kt:153 | splitting a join of delimiter-free tokens gives back the tokens |
| Strings.SplitAfterToken | ContextNetCore/src/main/java/br/pucrio/inf/lac/contextnetcore/ContextNetCore.kt:139 | a leading delimiter-free token is split off as the first token |
| Constants.PreferenceOrder | ContextNetCore/src/main/java/br/pucrio/inf/lac/contextnetcore/Constants.kt:13-18 | the iteration keys are the table's names, in insertion order |
| Constants.SuiteIdMap | ContextNetCore/src/main/java/br/pucrio/inf/lac/contextnetcore/Constants.kt:13-18 | the map's keys are exactly the table's names |
| Constants.PreferenceOrderIsInsertionOrder | ContextNetCore/src/main/java/br/pucrio/inf/lac/contextnetcore/Constants.kt:13-18 | the order is AES128_HMAC_MD5, then RC4_HMAC_SHA1, then RC4_HMAC_MD5, with no repeats |
| Constants.SuiteIdsInjective | ContextNetCore/src/main/java/br/pucrio/inf/lac/contextnetcore/Constants.kt:14-16 | the bytes 0x01, 0x02 and 0x03 are pairwise distinct, the map keeps every entry, and name to byte is injective |
| Constants.SuiteNamesSplitIntoThreeTokens | ContextNetCore/src/main/java/br/pucrio/inf/lac/contextnetcore/Constants.kt:14-16 | every suite name splits on `_` into exactly three non-empty tokens (cipher, MAC1, MAC2) |
| Plugins.SecureRandomToken | EdgeSec_Interfaces/src/main/java/br/pucrio/inf/lac/edgesecinterfaces/ICryptographicPlugin.kt:32 | a random token has exactly the requested length |
| HexString.HexPair | ContextNetCore/src/main/java/br/pucrio/inf/lac/contextnetcore/ContextNetCore.kt:242 | one byte becomes two upper-case hex digits |
| HexString.Hex | ContextNetCore/src/main/java/br/pucrio/inf/lac/contextnetcore/ContextNetCore.kt:238-246 | the output is twice as long as the input, so the empty input gives the empty string |
| HexString.HexAt | ContextNetCore/src/main/java/br/pucrio/inf/lac/contextnetcore/ContextNetCore.kt:238-246 | characters 2i and 2i+1 are byte i's hex pair, in input order, and every character is an upper-case hex digit |
| HexString.DigitValue | ContextNetCore/src/main/java/br/pucrio/inf/lac/contextnetcore/ContextNetCore.kt:242 | a character is a hex digit iff it has a value, and that value's digit is the character |
| HexString.ParseHex | ContextNetCore/src/main/java/br/pucrio/inf/lac/contextnetcore/ContextNetCore.kt:238-246 | a decoded string has half as many bytes as characters |
| HexString.ParseHexOfHex | ContextNetCore/src/main/java/br/pucrio/inf/lac/contextnetcore/ContextNetCore.kt:238-246 | decoding the hex string gives back the bytes, so the encoding is injective |
| HexString.DecodeByteArrayToHexString | ContextNetCore/src/main/java/br/pucrio/inf/lac/contextnetcore/ContextNetCore.kt:238-246 | the append loop builds exactly `Hex(bytes)` (twice the length, "" for no bytes), and that string decodes back to the input |
| ContextNetCore.CoreTablesValid | ContextNetCore/src/main/java/br/pucrio/inf/lac/contextnetcore/ContextNetCore.kt:23-44 | every registered object has an auth key, a cipher key, a suite list and a gateway list, so the `!!` lookups at :74, :95, :120 and :228 never fail |
| ContextNetCore.FirstSupportedIndex | ContextNetCore/src/main/java/br/pucrio/inf/lac/contextnetcore/ContextNetCore.kt:114-127 | gives the position of the first supported suite, or the length of the order when none is supported. Every earlier suite is unsupported |
| ContextNetCore.FirstSupportedIndexIs | ContextNetCore/src/main/java/br/pucrio/inf/lac/contextnetcore/ContextNetCore.kt:114-127 | the first supported position is unique |
| ContextNetCore.FirstSupported | ContextNetCore/src/main/java/br/pucrio/inf/lac/contextnetcore/ContextNetCore.kt:114-127 | a selected suite is supported, and no suite earlier in the preference order is supported. None is returned iff the two lists are disjoint |
| ContextNetCore.SelectProtocolSuite | ContextNetCore/src/main/java/br/pucrio/inf/lac/contextnetcore/ContextNetCore.kt:114-127 | the loop returns a supported suite, and no earlier suite in the preference order is supported. It returns None iff the lists are disjoint |
| ContextNetCore.SuiteSplitKeys | ContextNetCore/src/main/java/br/pucrio/inf/lac/contextnetcore/ContextNetCore.kt:138-156 | for `C_M1_M2`, the crypto key is `C` and the auth key is `M1_M2` |
| ContextNetCore.GetCryptoPlugin | ContextNetCore/src/main/java/br/pucrio/inf/lac/contextnetcore/ContextNetCore.kt:138-141 | gives None exactly when the cipher token is not a crypto-table key. Otherwise it gives that key's plugin |
| ContextNetCore.GetAuthPlugin | ContextNetCore/src/main/java/br/pucrio/inf/lac/contextnetcore/ContextNetCore.kt:152-156 | gives None exactly when the joined MAC tokens are not an auth-table key. Otherwise it gives that key's plugin |
| ContextNetCore.ShippedRegistryResolvesEverySuite | ContextNetCore/src/main/java/br/pucrio/inf/lac/contextnetcore/ContextNetCore.kt:46-54 | with the shipped plugin keys, every preference-order suite resolves to both plugins |
| ContextNetCore.GenerateSessionKey | ContextNetCore/src/main/java/br/pucrio/inf/lac/contextnetcore/ContextNetCore.kt:200-206 | the session key is a derived key's encoding for a seed of exactly `size` random bytes |
| ContextNetCore.OtpInput | ContextNetCore/src/main/java/br/pucrio/inf/lac/contextnetcore/ContextNetCore.kt:227-228 | the OTP input's length is the sum of its four fields' lengths |
| ContextNetCore.OtpInputFields | ContextNetCore/src/main/java/br/pucrio/inf/lac/contextnetcore/ContextNetCore.kt:227-228 | cutting at three lengths succeeds iff they fit, and the four pieces reassemble the input |
| ContextNetCore.OtpInputLayout | ContextNetCore/src/main/java/br/pucrio/inf/lac/contextnetcore/ContextNetCore.kt:227-228 | the OTP input is object id, gateway id, challenge, object auth key, in exactly that order |
| ContextNetCore.OtpInputSeparatesChallenges | ContextNetCore/src/main/java/br/pucrio/inf/lac/contextnetcore/ContextNetCore.kt:221-231 | for a fixed pair and key, different challenges of one length give different hashed inputs |
| ContextNetCore.GenerateOTP | ContextNetCore/src/main/java/br/pucrio/inf/lac/contextnetcore/ContextNetCore.kt:221-232 | the OTP is `generateHash` of that laid-out input, using the object's own auth key |
| ContextNetCore.GenerateAuthPackage | ContextNetCore/src/main/java/br/pucrio/inf/lac/contextnetcore/ContextNetCore.kt:171-188 | the package is E ++ S. E is the encryption of challenge ++ session key, so E is a prefix. S = sign(E, generateSecretKey(coreAuthKey)) is the rest, and the length is \|E\| + \|S\| |
| ContextNetCore.SplitSignedPackage | ContextNetCore/src/main/java/br/pucrio/inf/lac/contextnetcore/ContextNetCore.kt:187 | a split succeeds iff the signature fits, and the two parts reassemble the package |
| ContextNetCore.SignedPackageSplits | ContextNetCore/src/main/java/br/pucrio/inf/lac/contextnetcore/ContextNetCore.kt:171-188 | splitting off a signature-length tail gives back E and S |
| ContextNetCore.Authorize | ContextNetCore/src/main/java/br/pucrio/inf/lac/contextnetcore/ContextNetCore.kt:68-103 | the guards run in order: not registered, gateway not authorized, no common suite, no crypto plugin, no auth plugin. The first failing guard fixes the denial message, and the result is a grant exactly when all five guards pass. A grant carries the selected suite, the OTP over the 13-byte challenge drawn first, the key from the 11-byte seed drawn next, and the package built from the challenge |
| ContextNetCore.AuthorizeFallsBackToSupportedSuite | ContextNetCore/src/main/java/br/pucrio/inf/lac/contextnetcore/ContextNetCore.kt:78-84 | an object supporting only RC4_HMAC_MD5 is granted RC4_HMAC_MD5, although AES128_HMAC_MD5 is preferred |
| ContextNetCore.CoreTablesSelectAes | ContextNetCore/src/main/java/br/pucrio/inf/lac/contextnetcore/ContextNetCore.kt:35-39 | object 0879C623C9C8 is given AES128_HMAC_MD5 |
| ContextNetCore.CoreTablesSelectRc4Sha1 | ContextNetCore/src/main/java/br/pucrio/inf/lac/contextnetcore/ContextNetCore.kt:35-39 | the two objects that list RC4_HMAC_MD5 first are given RC4_HMAC_SHA1, because the core's preference wins |
| ContextNetCore.AuthorizeGrantsWhenSuiteResolves | ContextNetCore/src/main/java/br/pucrio/inf/lac/contextnetcore/ContextNetCore.kt:78-84 | with the shipped plugin keys, the two plugin guards never fire once a suite is selected |
| ContextNetCore.CoreTablesGrantExactlyAuthorizedPairs | ContextNetCore/src/main/java/br/pucrio/inf/lac/contextnetcore/ContextNetCore.kt:68-84 | with the shipped tables and plugins, a gateway is granted access iff the object is registered and lists that gateway |
| ContextNetCore.AuthorizeDecisionIgnoresEntropy | ContextNetCore/src/main/java/br/pucrio/inf/lac/contextnetcore/ContextNetCore.kt:68-98 | randomness affects only the OTP, the key and the package. The decision, the denial message and the suite do not depend on it |
| Rc4Token.TokenAsWritten | EdgeSec_Interfaces/src/main/java/br/pucrio/inf/lac/edgesecinterfaces/ICryptographicPlugin.kt:22-32 | as written, a token of `size` has `size + 1` digit bytes |
| Rc4Token.AsWrittenTokensAreOneByteLong | ContextNetCore/src/main/java/br/pucrio/inf/lac/contextnetcore/ContextNetCore.kt:87-89 | as written, the 13-byte challenge comes back as 14 bytes and the 11-byte seed as 12 |
| Rc4Token.Token | EdgeSec_Interfaces/src/main/java/br/pucrio/inf/lac/edgesecinterfaces/ICryptographicPlugin.kt:22-32 | corrected, the token has exactly `size` digit bytes |
| Rc4Token.TokenMeetsRequestedLength | EdgeSec_Interfaces/src/main/java/br/pucrio/inf/lac/edgesecinterfaces/ICryptographicPlugin.kt:22-32 | the corrected token is the as-written one minus its last digit, and it equals the model's `size`-byte entropy draw |

## Left out

- The `Gson` JSON serialisation of the response (ContextNetCore.kt:100-102): `Authorize` returns the record, because the JSON library is not part of this model.
- `print` debug logging (ContextNetCore.kt:234-236, and the calls at :88, :90, :180-186, :202, :204, :230): no effect on results.
- The concrete RC4, HMAC-MD5 and HMAC-SHA1 algorithms and `SecureRandom`: they are cryptographic and stay uninterpreted. Randomness is an entropy-stream parameter. The challenge takes stream bytes 0..12 and the seed bytes 13..23, following the source's draw order.
- Plugin members the core never calls (`decrypt`, `verifySignature`, `getHashSize`, `getProtocolID`): present as fields, with no behaviour.
- The registry's concrete plugin objects: `ShippedRegistry` fixes only its keys (AES128 and RC4; HMAC_SHA1 and HMAC_MD5). That AES128 is served by an RC4 instance is not stated.
- Kotlin strings are UTF-16. Dafny strings hold Unicode scalar values, so `encodeToByteArray`'s replacement of unpaired surrogates is not modelled.
- The gateway handshake engine, the secure session store and secure read/write: EdgeSec.kt is not part of this model.
- The BLE transport, the test app and the test library: I/O and UI wiring, with no logic of the provider.
- The RC4 plugin's generator (RC4.kt, lines 41-50 of the RC4 Cryptography module) is modelled in `Rc4Token`; its rows cite the plugin interface it implements and the core's calls to it.
- Plugins.SecureRandomToken: states only the requested length, as an assumption about any generator; the shipped RC4 generator breaks it (see Findings).

## Findings

| source | as written | input that shows it | evidently intended | confidence | as-written member | corrected member |
|---|---|---|---|---|---|---|
| RC4 Cryptography/src/main/java/br/pucrio/inf/lac/rc4cryptography/RC4.kt:45 | `for (i in 0..size)` is an inclusive range, so `generateSecureRandomToken(size)` returns `size + 1` digits | size 13 (the OTP challenge) gives 14 bytes; size 11 (the session-key seed) gives 12 | `0 until size`, giving exactly the fixed 13- and 11-byte fields | high, not executed | Rc4Token.TokenAsWritten, Rc4Token.AsWrittenTokensAreOneByteLong | Rc4Token.Token, Rc4Token.TokenMeetsRequestedLength |
