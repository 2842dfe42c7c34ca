/**
 * ContextNetCore, the authorization provider: decides whether a gateway may talk
 * to a smart object, picks a protocol suite, and issues the OTP, the session key
 * and the signed authentication package for the pair.
 */
module ContextNetCore {

  import opened Wrappers
  import opened Bytes
  import opened Strings
  import opened Plugins
  import opened Constants

  /** AuthorizationResponse: the record `authorize` returns (serialised to JSON in the original). */
  datatype AuthorizationResponse = AuthorizationResponse(
    otp: Bytes,
    sessionKey: Bytes,
    authenticationPackage: Bytes,
    protocolSuite: string)

  /** The `Pair<Boolean, String>` of `authorize`: `(true, response)` or `(false, reason)`. */
  datatype AuthorizeResult = Granted(response: AuthorizationResponse) | Denied(message: string)

  const NotRegistered := "Object is not registered in ContextNetCore"
  const GatewayNotAuthorized := "Gateway is not authorized to communicate with this object"
  const NoCommonSuite := "Object does not support any of the required protocol suites"
  const NoCryptoPlugin := "Failed to get crypto plugin"
  const NoAuthPlugin := "Failed to get auth plugin"

  /** The per-object lookup tables and the core-wide authentication key. */
  datatype Tables = Tables(
    coreAuthKey: Bytes,
    registeredObjects: seq<string>,
    objectsAuthKeys: map<string, Bytes>,
    objectsCipherKeys: map<string, Bytes>,
    objectsSupportedProtocolSuites: map<string, seq<string>>,
    objectsAuthorizedGateways: map<string, seq<string>>)

  /** Every registered object has an entry in each per-object table, so no `!!` lookup fails. */
  predicate Valid(t: Tables)
  {
    forall o :: o in t.registeredObjects ==>
      && o in t.objectsAuthKeys
      && o in t.objectsCipherKeys
      && o in t.objectsSupportedProtocolSuites
      && o in t.objectsAuthorizedGateways
  }

  /** The tables ContextNetCore ships with. */
  const CoreTables: Tables := Tables(
    Encode("Kauth_core"), CoreRegisteredObjects, CoreAuthKeys, CoreCipherKeys,
    CoreSupportedProtocolSuites, CoreAuthorizedGateways)

  const CoreRegisteredObjects: seq<string> := ["0879C623C9C8", "24:6F:28:B5:D8:3A", "ID_DEVICE0"]

  const CoreAuthKeys: map<string, Bytes> := map[
    "0879C623C9C8" := Encode("Kauth_Obj1"),
    "24:6F:28:B5:D8:3A" := Encode("Kauth_Obj2"),
    "ID_DEVICE0" := Encode("Kauth_obj")]

  const CoreCipherKeys: map<string, Bytes> := map[
    "0879C623C9C8" := Encode("Kcipher_Obj1"),
    "24:6F:28:B5:D8:3A" := Encode("Kcipher_Obj2"),
    "ID_DEVICE0" := Encode("Kcipher_obj")]

  const CoreSupportedProtocolSuites: map<string, seq<string>> := map[
    "0879C623C9C8" := ["RC4_HMAC_MD5", "RC4_HMAC_SHA1", "AES128_HMAC_MD5"],
    "24:6F:28:B5:D8:3A" := ["RC4_HMAC_MD5", "RC4_HMAC_SHA1"],
    "ID_DEVICE0" := ["RC4_HMAC_MD5", "RC4_HMAC_SHA1"]]

  const CoreAuthorizedGateways: map<string, seq<string>> := map[
    "0879C623C9C8" := ["736DF76FC9KU", "LK9JD765JKO9"],
    "24:6F:28:B5:D8:3A" := ["808DE88FC8TE", "02:00:00:00:00:00"],
    "ID_DEVICE0" := ["808DE88FC8TE", "02:00:00:00:00:00", "GATEWAY_ID"]]

  /** The shipped tables are consistent. */
  lemma CoreTablesValid()
    ensures Valid(CoreTables)
  {
  }

  /** The plugin tables: crypto plugins keyed by cipher name, auth plugins by MAC name. */
  datatype PluginRegistry = PluginRegistry(
    cryptoPlugins: map<string, CryptoPlugin>,
    authPlugins: map<string, AuthPlugin>)

  /** The shipped plugin tables: AES128 (served by the RC4 plugin) and RC4; HMAC_SHA1 and HMAC_MD5. */
  predicate ShippedRegistry(reg: PluginRegistry)
  {
    && reg.cryptoPlugins.Keys == {"AES128", "RC4"}
    && reg.authPlugins.Keys == {"HMAC_SHA1", "HMAC_MD5"}
  }

  // ---------------------------------------------------------------------------
  // Protocol-suite selection

  /**
   * The position of the first suite of `order` that `supported` contains, or `|order|`
   * when there is none: every earlier suite is unsupported.
   */
  function FirstSupportedIndex(order: seq<string>, supported: seq<string>): (i: nat)
    ensures i <= |order|
    ensures forall j :: 0 <= j < i ==> order[j] !in supported
    ensures i < |order| ==> order[i] in supported
  {
    if order == [] then 0
    else if order[0] in supported then 0
    else 1 + FirstSupportedIndex(order[1..], supported)
  }

  /** The first position holding a supported suite is the one FirstSupportedIndex finds. */
  lemma FirstSupportedIndexIs(order: seq<string>, supported: seq<string>, i: nat)
    requires i < |order| && order[i] in supported
    requires forall j :: 0 <= j < i ==> order[j] !in supported
    ensures FirstSupportedIndex(order, supported) == i
  {
  }

  /** The first suite of `order` that `supported` contains, or None when they share none. */
  function FirstSupported(order: seq<string>, supported: seq<string>): (r: Option<string>)
    ensures r.Some? ==> r.value in supported && r.value in order
    ensures r.None? <==> forall k :: k in order ==> k !in supported
    ensures r.Some? ==> exists i :: (0 <= i < |order| && order[i] == r.value
      && forall j :: 0 <= j < i ==> order[j] !in supported)
  {
    var i := FirstSupportedIndex(order, supported);
    if i < |order| then Some(order[i]) else None
  }

  /**
   * selectProtocolSuite: walks the preference order and returns the first suite the
   * object supports, or None when the object supports none of them.
   */
  method SelectProtocolSuite(t: Tables, objectID: string) returns (r: Option<string>)
    requires objectID in t.objectsSupportedProtocolSuites
    ensures r == FirstSupported(PreferenceOrder(), t.objectsSupportedProtocolSuites[objectID])
    ensures r.Some? ==> exists i :: (0 <= i < |PreferenceOrder()| && PreferenceOrder()[i] == r.value
      && r.value in t.objectsSupportedProtocolSuites[objectID]
      && forall j :: 0 <= j < i ==> PreferenceOrder()[j] !in t.objectsSupportedProtocolSuites[objectID])
    ensures r.None? <==> forall k :: k in PreferenceOrder() ==> k !in t.objectsSupportedProtocolSuites[objectID]
  {
    var supported := t.objectsSupportedProtocolSuites[objectID];
    var order := PreferenceOrder();
    var i := 0;
    while i < |order|
      invariant 0 <= i <= |order|
      invariant forall j :: 0 <= j < i ==> order[j] !in supported
    {
      if order[i] in supported {
        return Some(order[i]);
      }
      i := i + 1;
    }
    return None;
  }

  // ---------------------------------------------------------------------------
  // Plugin lookup

  /** The crypto-table key of a suite: its first `_` token. */
  function CryptoKey(suite: string): string
  {
    Split(suite, '_')[0]
  }

  /** The auth-table key of a suite: its second and third `_` tokens, joined with `_`. */
  function AuthKey(suite: string): string
    requires |Split(suite, '_')| >= 3
  {
    Split(suite, '_')[1] + "_" + Split(suite, '_')[2]
  }

  /** For a suite `<CIPHER>_<MAC1>_<MAC2>` the keys are `<CIPHER>` and `<MAC1>_<MAC2>`. */
  lemma SuiteSplitKeys(cipher: string, mac1: string, mac2: string)
    requires '_' !in cipher && '_' !in mac1 && '_' !in mac2
    ensures |Split(cipher + "_" + mac1 + "_" + mac2, '_')| == 3
    ensures CryptoKey(cipher + "_" + mac1 + "_" + mac2) == cipher
    ensures AuthKey(cipher + "_" + mac1 + "_" + mac2) == mac1 + "_" + mac2
  {
    var ts := [cipher, mac1, mac2];
    assert Join(ts[2..], '_') == mac2;
    assert Join(ts[1..], '_') == mac1 + "_" + mac2;
    assert Join(ts, '_') == cipher + "_" + mac1 + "_" + mac2;
    SplitJoin(ts, '_');
  }

  /** getCryptoPlugin: the crypto plugin registered under the suite's cipher name, if any. */
  function GetCryptoPlugin(reg: PluginRegistry, suite: string): (r: Option<CryptoPlugin>)
    ensures r.None? <==> CryptoKey(suite) !in reg.cryptoPlugins
    ensures r.Some? ==> r.value == reg.cryptoPlugins[CryptoKey(suite)]
  {
    var key := CryptoKey(suite);
    if key in reg.cryptoPlugins then Some(reg.cryptoPlugins[key]) else None
  }

  /** getAuthPlugin: the auth plugin registered under the suite's MAC name, if any. */
  function GetAuthPlugin(reg: PluginRegistry, suite: string): (r: Option<AuthPlugin>)
    requires |Split(suite, '_')| >= 3
    ensures r.None? <==> AuthKey(suite) !in reg.authPlugins
    ensures r.Some? ==> r.value == reg.authPlugins[AuthKey(suite)]
  {
    var key := AuthKey(suite);
    if key in reg.authPlugins then Some(reg.authPlugins[key]) else None
  }

  /** Every suite of the preference order resolves to both plugins in the shipped registry. */
  lemma ShippedRegistryResolvesEverySuite(reg: PluginRegistry)
    requires ShippedRegistry(reg)
    ensures forall k :: k in PreferenceOrder() ==>
      |Split(k, '_')| >= 3 && GetCryptoPlugin(reg, k).Some? && GetAuthPlugin(reg, k).Some?
  {
    forall k | k in PreferenceOrder()
      ensures |Split(k, '_')| >= 3 && GetCryptoPlugin(reg, k).Some? && GetAuthPlugin(reg, k).Some?
    {
      var i :| 0 <= i < |PreferenceOrder()| && PreferenceOrder()[i] == k;
      ShippedRegistryResolves(reg, i);
    }
  }

  lemma ShippedRegistryResolves(reg: PluginRegistry, i: nat)
    requires ShippedRegistry(reg)
    requires i < |ProtocolSuiteIds|
    ensures var k := ProtocolSuiteIds[i].0;
      |Split(k, '_')| >= 3 && GetCryptoPlugin(reg, k).Some? && GetAuthPlugin(reg, k).Some?
  {
    SplitsAt(i);
    var ts := Split(ProtocolSuiteIds[i].0, '_');
    assert ts == SuiteTokens(i);
    MacNames();
  }

  lemma MacNames()
    ensures "HMAC" + "_" + "MD5" == "HMAC_MD5"
    ensures "HMAC" + "_" + "SHA1" == "HMAC_SHA1"
  {
  }

  // ---------------------------------------------------------------------------
  // Authentication values

  /** generateSessionKey: the encoded secret key derived from a fresh `size`-byte random seed. */
  function GenerateSessionKey(size: nat, crypto: CryptoPlugin, entropy: Entropy, offset: nat): (r: Bytes)
    ensures exists seed :: |seed| == size && r == crypto.generateSecretKey(seed).encoded
  {
    var seed := SecureRandomToken(entropy, offset, size);
    crypto.generateSecretKey(seed).encoded
  }

  /** The bytes generateOTP hashes: object id, gateway id, challenge and object key, in that order. */
  function OtpInput(objectID: string, gatewayID: string, otpChallenge: Bytes, objectAuthKey: Bytes): (r: Bytes)
    ensures |r| == |Encode(objectID)| + |Encode(gatewayID)| + |otpChallenge| + |objectAuthKey|
  {
    Encode(objectID) + Encode(gatewayID) + otpChallenge + objectAuthKey
  }

  /** Cuts an OTP input into its four fields, given the lengths of the first three. */
  function OtpInputFields(input: Bytes, objectLen: nat, gatewayLen: nat, challengeLen: nat): (r: Option<(Bytes, Bytes, Bytes, Bytes)>)
    ensures r.Some? <==> objectLen + gatewayLen + challengeLen <= |input|
    ensures r.Some? ==> r.value.0 + r.value.1 + r.value.2 + r.value.3 == input
  {
    if objectLen + gatewayLen + challengeLen <= |input| then
      var a := objectLen;
      var b := a + gatewayLen;
      var c := b + challengeLen;
      assert input[..a] + input[a..b] + input[b..c] + input[c..] == input;
      Some((input[..a], input[a..b], input[b..c], input[c..]))
    else None
  }

  /**
   * The OTP input is laid out in exactly the order object id, gateway id, challenge,
   * object key: cutting it at the field lengths gives the four fields back.
   */
  lemma OtpInputLayout(objectID: string, gatewayID: string, otpChallenge: Bytes, objectAuthKey: Bytes)
    ensures OtpInputFields(OtpInput(objectID, gatewayID, otpChallenge, objectAuthKey),
      |Encode(objectID)|, |Encode(gatewayID)|, |otpChallenge|)
      == Some((Encode(objectID), Encode(gatewayID), otpChallenge, objectAuthKey))
  {
    FourFields(Encode(objectID), Encode(gatewayID), otpChallenge, objectAuthKey);
  }

  lemma FourFields(o: Bytes, g: Bytes, c: Bytes, k: Bytes)
    ensures OtpInputFields(o + g + c + k, |o|, |g|, |c|) == Some((o, g, c, k))
  {
    var input := o + g + c + k;
    assert input[..|o|] == o;
    assert input[|o|..|o| + |g|] == g;
    assert input[|o| + |g|..|o| + |g| + |c|] == c;
    assert input[|o| + |g| + |c|..] == k;
  }

  /** For one object/gateway pair and key, different challenges of one length give different OTP inputs. */
  lemma OtpInputSeparatesChallenges(objectID: string, gatewayID: string, c1: Bytes, c2: Bytes, objectAuthKey: Bytes)
    requires |c1| == |c2| && c1 != c2
    ensures OtpInput(objectID, gatewayID, c1, objectAuthKey) != OtpInput(objectID, gatewayID, c2, objectAuthKey)
  {
    OtpInputLayout(objectID, gatewayID, c1, objectAuthKey);
    OtpInputLayout(objectID, gatewayID, c2, objectAuthKey);
  }

  /** generateOTP: the auth plugin's hash of the OTP input, with the object's own auth key. */
  function GenerateOTP(t: Tables, objectID: string, gatewayID: string, otpChallenge: Bytes, auth: AuthPlugin): (r: Bytes)
    requires objectID in t.objectsAuthKeys
    ensures r == auth.generateHash(OtpInput(objectID, gatewayID, otpChallenge, t.objectsAuthKeys[objectID]))
  {
    var concatenation := Encode(objectID) + Encode(gatewayID) + otpChallenge + t.objectsAuthKeys[objectID];
    auth.generateHash(concatenation)
  }

  /** The package's encrypted part: challenge and session key, encrypted with the object's cipher key. */
  function EncryptedAuthPackage(cipherKey: Bytes, otpChallenge: Bytes, sessionKey: Bytes, crypto: CryptoPlugin): Bytes
  {
    crypto.encrypt(otpChallenge + sessionKey, cipherKey)
  }

  /**
   * generateAuthPackage: the encrypted package E followed by its signature
   * S = sign(E, generateSecretKey(coreAuthKey)).
   */
  function GenerateAuthPackage(
    cipherKey: Bytes, otpChallenge: Bytes, sessionKey: Bytes,
    crypto: CryptoPlugin, auth: AuthPlugin, coreAuthKey: Bytes): (r: Bytes)
    ensures var e := EncryptedAuthPackage(cipherKey, otpChallenge, sessionKey, crypto);
      && |r| == |e| + |auth.sign(e, crypto.generateSecretKey(coreAuthKey))|
      && r[..|e|] == e
      && r[|e|..] == auth.sign(e, crypto.generateSecretKey(coreAuthKey))
  {
    var authPackage := otpChallenge + sessionKey;
    var encryptedAuthPackage := crypto.encrypt(authPackage, cipherKey);
    var signingKey := crypto.generateSecretKey(coreAuthKey);
    var authPackageSignature := auth.sign(encryptedAuthPackage, signingKey);
    encryptedAuthPackage + authPackageSignature
  }

  /** Splits a signed package into its body and its trailing `signatureSize`-byte signature. */
  function SplitSignedPackage(package: Bytes, signatureSize: nat): (r: Option<(Bytes, Bytes)>)
    ensures r.Some? <==> signatureSize <= |package|
    ensures r.Some? ==> |r.value.1| == signatureSize && r.value.0 + r.value.1 == package
  {
    if signatureSize <= |package| then
      var n := |package| - signatureSize;
      assert package[..n] + package[n..] == package;
      Some((package[..n], package[n..]))
    else None
  }

  /** Splitting off a signature of the length the plugin produced gives back E and S. */
  lemma SignedPackageSplits(
    cipherKey: Bytes, otpChallenge: Bytes, sessionKey: Bytes,
    crypto: CryptoPlugin, auth: AuthPlugin, coreAuthKey: Bytes)
    ensures var e := EncryptedAuthPackage(cipherKey, otpChallenge, sessionKey, crypto);
      var s := auth.sign(e, crypto.generateSecretKey(coreAuthKey));
      SplitSignedPackage(GenerateAuthPackage(cipherKey, otpChallenge, sessionKey, crypto, auth, coreAuthKey), |s|)
        == Some((e, s))
  {
  }

  // ---------------------------------------------------------------------------
  // authorize

  /** The suite the core picks for an object: the first of the preference order it supports. */
  function SelectedSuite(t: Tables, objectID: string): Option<string>
    requires objectID in t.objectsSupportedProtocolSuites
  {
    FirstSupported(PreferenceOrder(), t.objectsSupportedProtocolSuites[objectID])
  }

  /**
   * What a grant for `objectID`/`gatewayID` holds: the selected suite, the OTP over the
   * 13-byte challenge drawn first, the session key from the 11-byte seed drawn next, and
   * the package E ++ sign(E, K) with E the encryption of challenge ++ session key.
   */
  ghost predicate IsGrant(t: Tables, reg: PluginRegistry, gatewayID: string, objectID: string,
    entropy: Entropy, resp: AuthorizationResponse)
    requires Valid(t)
  {
    && objectID in t.registeredObjects
    && gatewayID in t.objectsAuthorizedGateways[objectID]
    && SelectedSuite(t, objectID) == Some(resp.protocolSuite)
    && |Split(resp.protocolSuite, '_')| >= 3
    && CryptoKey(resp.protocolSuite) in reg.cryptoPlugins
    && AuthKey(resp.protocolSuite) in reg.authPlugins
    && var crypto := reg.cryptoPlugins[CryptoKey(resp.protocolSuite)];
       var auth := reg.authPlugins[AuthKey(resp.protocolSuite)];
       var challenge := SecureRandomToken(entropy, 0, OtpChallengeBytesSize);
       var seed := SecureRandomToken(entropy, OtpChallengeBytesSize, SessionKeyBytesSize);
       var e := crypto.encrypt(challenge + resp.sessionKey, t.objectsCipherKeys[objectID]);
       && resp.sessionKey == crypto.generateSecretKey(seed).encoded
       && resp.otp == auth.generateHash(
            Encode(objectID) + Encode(gatewayID) + challenge + t.objectsAuthKeys[objectID])
       && resp.authenticationPackage == e + auth.sign(e, crypto.generateSecretKey(t.coreAuthKey))
  }

  /**
   * authorize: the guards run in order and the first that fails decides the denial;
   * when all pass, the result is the grant described by IsGrant.
   */
  function Authorize(t: Tables, reg: PluginRegistry, gatewayID: string, objectID: string, entropy: Entropy)
    : (r: AuthorizeResult)
    requires Valid(t)
    ensures objectID !in t.registeredObjects ==> r == Denied(NotRegistered)
    ensures objectID in t.registeredObjects && gatewayID !in t.objectsAuthorizedGateways[objectID]
      ==> r == Denied(GatewayNotAuthorized)
    ensures objectID in t.registeredObjects && gatewayID in t.objectsAuthorizedGateways[objectID]
      && (forall k :: k in PreferenceOrder() ==> k !in t.objectsSupportedProtocolSuites[objectID])
      ==> r == Denied(NoCommonSuite)
    ensures r == Denied(NoCryptoPlugin) <==>
      && objectID in t.registeredObjects && gatewayID in t.objectsAuthorizedGateways[objectID]
      && SelectedSuite(t, objectID).Some?
      && CryptoKey(SelectedSuite(t, objectID).value) !in reg.cryptoPlugins
    ensures r == Denied(NoAuthPlugin) <==>
      && objectID in t.registeredObjects && gatewayID in t.objectsAuthorizedGateways[objectID]
      && SelectedSuite(t, objectID).Some?
      && CryptoKey(SelectedSuite(t, objectID).value) in reg.cryptoPlugins
      && |Split(SelectedSuite(t, objectID).value, '_')| >= 3
      && AuthKey(SelectedSuite(t, objectID).value) !in reg.authPlugins
    ensures r.Granted? <==>
      && objectID in t.registeredObjects && gatewayID in t.objectsAuthorizedGateways[objectID]
      && SelectedSuite(t, objectID).Some?
      && CryptoKey(SelectedSuite(t, objectID).value) in reg.cryptoPlugins
      && |Split(SelectedSuite(t, objectID).value, '_')| >= 3
      && AuthKey(SelectedSuite(t, objectID).value) in reg.authPlugins
    ensures r.Denied? ==> r.message in [NotRegistered, GatewayNotAuthorized, NoCommonSuite, NoCryptoPlugin, NoAuthPlugin]
    ensures r.Granted? ==> IsGrant(t, reg, gatewayID, objectID, entropy, r.response)
  {
    if objectID !in t.registeredObjects then
      Denied(NotRegistered)
    else if gatewayID !in t.objectsAuthorizedGateways[objectID] then
      Denied(GatewayNotAuthorized)
    else match SelectedSuite(t, objectID)
      case None => Denied(NoCommonSuite)
      case Some(suite) =>
        match GetCryptoPlugin(reg, suite)
        case None => Denied(NoCryptoPlugin)
        case Some(crypto) =>
          SuiteNamesSplitIntoThreeTokens();
          match GetAuthPlugin(reg, suite)
          case None => Denied(NoAuthPlugin)
          case Some(auth) =>
            var otpChallenge := SecureRandomToken(entropy, 0, OtpChallengeBytesSize);
            var sessionKey := GenerateSessionKey(SessionKeyBytesSize, crypto, entropy, OtpChallengeBytesSize);
            var otp := GenerateOTP(t, objectID, gatewayID, otpChallenge, auth);
            var authenticationPackage := GenerateAuthPackage(
              t.objectsCipherKeys[objectID], otpChallenge, sessionKey, crypto, auth, t.coreAuthKey);
            Granted(AuthorizationResponse(otp, sessionKey, authenticationPackage, suite))
  }

  // ---------------------------------------------------------------------------
  // Properties of authorize

  /**
   * The preference order is the core's, not the object's: an object listing only
   * RC4_HMAC_MD5 gets RC4_HMAC_MD5 even though AES128_HMAC_MD5 is preferred.
   */
  lemma AuthorizeFallsBackToSupportedSuite(t: Tables, reg: PluginRegistry, gatewayID: string, objectID: string, entropy: Entropy)
    requires Valid(t) && ShippedRegistry(reg)
    requires objectID in t.registeredObjects && gatewayID in t.objectsAuthorizedGateways[objectID]
    requires t.objectsSupportedProtocolSuites[objectID] == ["RC4_HMAC_MD5"]
    ensures Authorize(t, reg, gatewayID, objectID, entropy).Granted?
    ensures Authorize(t, reg, gatewayID, objectID, entropy).response.protocolSuite == "RC4_HMAC_MD5"
  {
    PreferenceOrderIsInsertionOrder();
    SuiteNameLengths();
    var supported := t.objectsSupportedProtocolSuites[objectID];
    assert PreferenceOrder()[0] !in supported && PreferenceOrder()[1] !in supported;
    FirstSupportedIndexIs(PreferenceOrder(), supported, 2);
    ShippedRegistryResolves(reg, 2);
  }

  /** The three suite names have different lengths, so no two of them are equal. */
  lemma SuiteNameLengths()
    ensures |"AES128_HMAC_MD5"| == 15 && |"RC4_HMAC_SHA1"| == 13 && |"RC4_HMAC_MD5"| == 12
  {
  }

  /** The shipped tables select AES128_HMAC_MD5 for the object that lists it last. */
  lemma CoreTablesSelectAes()
    ensures SelectedSuite(CoreTables, "0879C623C9C8") == Some("AES128_HMAC_MD5")
  {
    PreferenceOrderIsInsertionOrder();
    var supported := CoreSupportedProtocolSuites["0879C623C9C8"];
    assert supported[2] == PreferenceOrder()[0];
    FirstSupportedIndexIs(PreferenceOrder(), supported, 0);
  }

  /**
   * The two objects that list RC4_HMAC_MD5 before RC4_HMAC_SHA1 get RC4_HMAC_SHA1:
   * the core's preference wins over each object's list order.
   */
  lemma CoreTablesSelectRc4Sha1(objectID: string)
    requires objectID in ["24:6F:28:B5:D8:3A", "ID_DEVICE0"]
    ensures objectID in CoreTables.objectsSupportedProtocolSuites
    ensures SelectedSuite(CoreTables, objectID) == Some("RC4_HMAC_SHA1")
  {
    PreferenceOrderIsInsertionOrder();
    SuiteNameLengths();
    var order := PreferenceOrder();
    var supported := CoreSupportedProtocolSuites[objectID];
    assert supported == ["RC4_HMAC_MD5", "RC4_HMAC_SHA1"];
    assert supported[1] == order[1];
    assert |order[0]| != |supported[0]| && |order[0]| != |supported[1]|;
    FirstSupportedIndexIs(order, supported, 1);
  }

  /** Past the first two guards, a shipped registry always yields a grant once some suite is shared. */
  lemma AuthorizeGrantsWhenSuiteResolves(t: Tables, reg: PluginRegistry, gatewayID: string, objectID: string, entropy: Entropy)
    requires Valid(t) && ShippedRegistry(reg)
    requires objectID in t.registeredObjects && gatewayID in t.objectsAuthorizedGateways[objectID]
    requires SelectedSuite(t, objectID).Some?
    ensures Authorize(t, reg, gatewayID, objectID, entropy).Granted?
  {
    ShippedRegistryResolvesEverySuite(reg);
    var suite := SelectedSuite(t, objectID).value;
    assert suite in PreferenceOrder();
  }

  /**
   * With the shipped tables and plugins the plugin guards never fire: a gateway is
   * granted access to an object exactly when the object is registered and lists it.
   */
  lemma CoreTablesGrantExactlyAuthorizedPairs(reg: PluginRegistry, gatewayID: string, objectID: string, entropy: Entropy)
    requires ShippedRegistry(reg)
    ensures Valid(CoreTables)
    ensures Authorize(CoreTables, reg, gatewayID, objectID, entropy).Granted? <==>
      objectID in CoreTables.registeredObjects && gatewayID in CoreTables.objectsAuthorizedGateways[objectID]
  {
    CoreTablesValid();
    if objectID in CoreTables.registeredObjects && gatewayID in CoreTables.objectsAuthorizedGateways[objectID] {
      if objectID == "0879C623C9C8" {
        CoreTablesSelectAes();
      } else {
        CoreTablesSelectRc4Sha1(objectID);
      }
      AuthorizeGrantsWhenSuiteResolves(CoreTables, reg, gatewayID, objectID, entropy);
    }
  }

  /** The random draws only fill the OTP, the session key and the package: the decision and the suite ignore them. */
  lemma AuthorizeDecisionIgnoresEntropy(t: Tables, reg: PluginRegistry, gatewayID: string, objectID: string, e1: Entropy, e2: Entropy)
    requires Valid(t)
    ensures Authorize(t, reg, gatewayID, objectID, e1).Granted? == Authorize(t, reg, gatewayID, objectID, e2).Granted?
    ensures Authorize(t, reg, gatewayID, objectID, e1).Denied? ==>
      Authorize(t, reg, gatewayID, objectID, e1) == Authorize(t, reg, gatewayID, objectID, e2)
    ensures Authorize(t, reg, gatewayID, objectID, e1).Granted? ==>
      Authorize(t, reg, gatewayID, objectID, e1).response.protocolSuite
        == Authorize(t, reg, gatewayID, objectID, e2).response.protocolSuite
  {
  }
}
