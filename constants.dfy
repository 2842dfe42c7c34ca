/** The constant values of ContextNetCore: the protocol-suite table and the random-token sizes. */
module Constants {

  import opened Bytes
  import opened Strings

  /**
   * PROTOCOLS_SUITE_ID: suite name to suite byte. Kotlin's `mapOf` iterates its keys
   * in insertion order, so the order of this sequence is the preference order.
   */
  const ProtocolSuiteIds: seq<(string, Byte)> := [
    ("AES128_HMAC_MD5", 0x01),
    ("RC4_HMAC_SHA1", 0x02),
    ("RC4_HMAC_MD5", 0x03)
  ]

  /** OTP_CHALLENGE_BYTES_SIZE: length of the random OTP challenge. */
  const OtpChallengeBytesSize: nat := 13

  /** SESSION_KEY_BYTES_SIZE: length of the random seed the session key is derived from. */
  const SessionKeyBytesSize: nat := 11

  /** `PROTOCOLS_SUITE_ID.keys`, in iteration order. */
  function PreferenceOrder(): (ks: seq<string>)
    ensures |ks| == |ProtocolSuiteIds|
    ensures forall i :: 0 <= i < |ks| ==> ks[i] == ProtocolSuiteIds[i].0
  {
    seq(|ProtocolSuiteIds|, i requires 0 <= i < |ProtocolSuiteIds| => ProtocolSuiteIds[i].0)
  }

  /** The table as the Kotlin map it is: name to suite byte. */
  function SuiteIdMap(): (m: map<string, Byte>)
    ensures m.Keys == set i | 0 <= i < |ProtocolSuiteIds| :: ProtocolSuiteIds[i].0
  {
    map i | 0 <= i < |ProtocolSuiteIds| :: ProtocolSuiteIds[i].0 := ProtocolSuiteIds[i].1
  }

  /** Iteration visits AES128_HMAC_MD5, then RC4_HMAC_SHA1, then RC4_HMAC_MD5, each once. */
  lemma PreferenceOrderIsInsertionOrder()
    ensures PreferenceOrder() == ["AES128_HMAC_MD5", "RC4_HMAC_SHA1", "RC4_HMAC_MD5"]
    ensures forall i, j :: 0 <= i < j < |PreferenceOrder()| ==> PreferenceOrder()[i] != PreferenceOrder()[j]
  {
  }

  /** The suite bytes are pairwise distinct: the name-to-byte map is injective and keeps every entry. */
  lemma SuiteIdsInjective()
    ensures forall i, j :: 0 <= i < j < |ProtocolSuiteIds| ==> ProtocolSuiteIds[i].1 != ProtocolSuiteIds[j].1
    ensures forall i :: 0 <= i < |ProtocolSuiteIds| ==> SuiteIdMap()[ProtocolSuiteIds[i].0] == ProtocolSuiteIds[i].1
    ensures forall n, n' :: n in SuiteIdMap() && n' in SuiteIdMap() && n != n' ==> SuiteIdMap()[n] != SuiteIdMap()[n']
  {
    PreferenceOrderIsInsertionOrder();
  }

  /** The three tokens `<CIPHER>`, `<MAC1>`, `<MAC2>` a suite name splits into on `_`. */
  function SuiteTokens(i: nat): (ts: seq<string>)
    requires i < |ProtocolSuiteIds|
    ensures |ts| == 3
    ensures forall j :: 0 <= j < 3 ==> ts[j] != ""
  {
    [["AES128", "HMAC", "MD5"], ["RC4", "HMAC", "SHA1"], ["RC4", "HMAC", "MD5"]][i]
  }

  /**
   * Every suite name splits on `_` into exactly three non-empty tokens: the cipher
   * name and the two halves of the MAC name (what `getAuthPlugin`'s `[1]` and `[2]` rely on).
   */
  lemma SuiteNamesSplitIntoThreeTokens()
    ensures forall i :: 0 <= i < |ProtocolSuiteIds| ==>
      Split(ProtocolSuiteIds[i].0, '_') == SuiteTokens(i)
    ensures forall k :: k in PreferenceOrder() ==>
      |Split(k, '_')| == 3 && forall j :: 0 <= j < 3 ==> Split(k, '_')[j] != ""
  {
    forall i | 0 <= i < |ProtocolSuiteIds|
      ensures Split(ProtocolSuiteIds[i].0, '_') == SuiteTokens(i)
    {
      SplitsAt(i);
    }
    forall k | k in PreferenceOrder()
      ensures |Split(k, '_')| == 3 && forall j :: 0 <= j < 3 ==> Split(k, '_')[j] != ""
    {
      var i :| 0 <= i < |PreferenceOrder()| && PreferenceOrder()[i] == k;
      SplitsAt(i);
    }
  }

  lemma SplitsAt(i: nat)
    requires i < |ProtocolSuiteIds|
    ensures Split(ProtocolSuiteIds[i].0, '_') == SuiteTokens(i)
  {
    var ts := SuiteTokens(i);
    assert Join(ts[2..], '_') == ts[2];
    assert Join(ts[1..], '_') == ts[1] + "_" + ts[2];
    assert Join(ts, '_') == ts[0] + "_" + ts[1] + "_" + ts[2];
    assert Join(ts, '_') == ProtocolSuiteIds[i].0;
    SplitJoin(ts, '_');
  }
}
