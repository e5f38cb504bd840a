/** Certificate pinning: the ApproovTrustEvaluator's check of the server's
    public keys against the SDK's per-host pins, and the ApproovTrustManager's
    choice of evaluator. A pin is the base64 of the SHA-256 of a key's SPKI
    (section 2.4 of RFC 7469). The shapes-app copy falls back to the "*"
    (managed trust) pins for a host listed without pins; the framework copy
    does not. SHA-256 and base64 are parameters of the model. */
module Pinning {
  import opened Common
  import opened Spki

  /** The pin map `getPins("public-key-sha256")` returns: host to pin list. */
  type PinMap = map<string, seq<string>>

  const ManagedTrustHost: string := "*"

  /** Which copy's pinning rule applies: shapes-app (with the "*" fallback)
      or framework (host pins only). */
  datatype PinPolicy = ManagedTrustFallback | HostPinsOnly

  /** The pins that decide a host: none needed, a list to compare against,
      or the host is not listed at all. */
  datatype PinLookup = Unpinned | CheckAgainst(pins: seq<string>) | HostUnknown

  datatype TrustError =
    | NoPublicKeysFound
    | PinMismatch
    | SpkiFailure(reason: SpkiError)

  /** The effective pin list for `host`. */
  function PinsFor(policy: PinPolicy, pins: PinMap, host: string): (r: PinLookup)
    ensures r.HostUnknown? <==> host !in pins
    ensures host in pins && pins[host] != [] ==> r == CheckAgainst(pins[host])
    ensures host in pins && pins[host] == [] ==>
      (r.Unpinned? <==> policy == HostPinsOnly || ManagedTrustHost !in pins)
    ensures host in pins && pins[host] == [] && r.CheckAgainst? ==>
      ManagedTrustHost in pins && r.pins == pins[ManagedTrustHost]
  {
    if host !in pins then HostUnknown
    else if pins[host] != [] then CheckAgainst(pins[host])
    else if policy == HostPinsOnly || ManagedTrustHost !in pins then Unpinned
    else CheckAgainst(pins[ManagedTrustHost])
  }

  /** The fingerprint of an SPKI. */
  function Fingerprint(sha256: Bytes -> Bytes, base64: Bytes -> string, spki: Bytes): string {
    base64(sha256(spki))
  }

  /** The key scan: keys in order, the first key whose fingerprint is a pin
      ends it with a match (`Ok(true)`), a key whose SPKI cannot be built
      before that ends it with the error, and running out of keys is no
      match (`Ok(false)`). */
  function KeyScan(table: HeaderTable, keys: seq<ServerKey>, pins: seq<string>,
                   sha256: Bytes -> Bytes, base64: Bytes -> string): Result<bool, SpkiError>
    decreases |keys|
  {
    if keys == [] then Ok(false)
    else match GetSpkiHeader(table, keys[0])
      case Err(e) => Err(e)
      case Ok(spki) =>
        if Fingerprint(sha256, base64, spki) in pins then Ok(true)
        else KeyScan(table, keys[1..], pins, sha256, base64)
  }

  /** The key's SPKI can be built and its fingerprint is a pin. */
  predicate KeyMatches(table: HeaderTable, key: ServerKey, pins: seq<string>,
                       sha256: Bytes -> Bytes, base64: Bytes -> string)
  {
    GetSpkiHeader(table, key).Ok? && Fingerprint(sha256, base64, GetSpkiHeader(table, key).value) in pins
  }

  /** The key's SPKI can be built and its fingerprint is not a pin. */
  predicate KeyPassedOver(table: HeaderTable, key: ServerKey, pins: seq<string>,
                          sha256: Bytes -> Bytes, base64: Bytes -> string)
  {
    GetSpkiHeader(table, key).Ok? && Fingerprint(sha256, base64, GetSpkiHeader(table, key).value) !in pins
  }

  /** A match means some key, every key before which was built and passed
      over, matches a pin; and such a key always yields a match whatever
      follows it. */
  lemma {:induction false} ScanMatchIffMatchingKey(table: HeaderTable, keys: seq<ServerKey>, pins: seq<string>,
                                                   sha256: Bytes -> Bytes, base64: Bytes -> string)
    ensures KeyScan(table, keys, pins, sha256, base64) == Ok(true) <==>
      exists i :: 0 <= i < |keys| && KeyMatches(table, keys[i], pins, sha256, base64)
        && forall j :: 0 <= j < i ==> KeyPassedOver(table, keys[j], pins, sha256, base64)
    decreases |keys|
  {
    if keys != [] {
      ScanMatchIffMatchingKey(table, keys[1..], pins, sha256, base64);
      var scan := KeyScan(table, keys, pins, sha256, base64);
      if scan == Ok(true) && !KeyMatches(table, keys[0], pins, sha256, base64) {
        var i :| 0 <= i < |keys| - 1 && KeyMatches(table, keys[1..][i], pins, sha256, base64)
          && forall j :: 0 <= j < i ==> KeyPassedOver(table, keys[1..][j], pins, sha256, base64);
        assert forall j :: 0 <= j < i + 1 ==> KeyPassedOver(table, keys[j], pins, sha256, base64) by {
          forall j | 0 <= j < i + 1 ensures KeyPassedOver(table, keys[j], pins, sha256, base64) {
            if j > 0 { assert keys[j] == keys[1..][j - 1]; }
          }
        }
      }
      if exists i :: 0 <= i < |keys| && KeyMatches(table, keys[i], pins, sha256, base64)
           && forall j :: 0 <= j < i ==> KeyPassedOver(table, keys[j], pins, sha256, base64)
      {
        var i :| 0 <= i < |keys| && KeyMatches(table, keys[i], pins, sha256, base64)
          && forall j :: 0 <= j < i ==> KeyPassedOver(table, keys[j], pins, sha256, base64);
        if i > 0 {
          assert KeyPassedOver(table, keys[0], pins, sha256, base64);
          assert KeyMatches(table, keys[1..][i - 1], pins, sha256, base64);
          assert forall j :: 0 <= j < i - 1 ==> KeyPassedOver(table, keys[1..][j], pins, sha256, base64) by {
            forall j | 0 <= j < i - 1 ensures KeyPassedOver(table, keys[1..][j], pins, sha256, base64) {
              assert keys[1..][j] == keys[j + 1];
            }
          }
        }
      }
    }
  }

  /** An SPKI failure is the failure of the first key that is not passed
      over, and only a key met before any match can cause one. */
  lemma {:induction false} ScanErrorIsFirstUnbuildableKey(table: HeaderTable, keys: seq<ServerKey>, pins: seq<string>,
                                                          sha256: Bytes -> Bytes, base64: Bytes -> string, e: SpkiError)
    ensures KeyScan(table, keys, pins, sha256, base64) == Err(e) <==>
      exists i :: 0 <= i < |keys| && GetSpkiHeader(table, keys[i]) == Err(e)
        && forall j :: 0 <= j < i ==> KeyPassedOver(table, keys[j], pins, sha256, base64)
    decreases |keys|
  {
    if keys != [] {
      ScanErrorIsFirstUnbuildableKey(table, keys[1..], pins, sha256, base64, e);
      var scan := KeyScan(table, keys, pins, sha256, base64);
      if scan == Err(e) && GetSpkiHeader(table, keys[0]).Ok? {
        var i :| 0 <= i < |keys| - 1 && GetSpkiHeader(table, keys[1..][i]) == Err(e)
          && forall j :: 0 <= j < i ==> KeyPassedOver(table, keys[1..][j], pins, sha256, base64);
        assert forall j :: 0 <= j < i + 1 ==> KeyPassedOver(table, keys[j], pins, sha256, base64) by {
          forall j | 0 <= j < i + 1 ensures KeyPassedOver(table, keys[j], pins, sha256, base64) {
            if j > 0 { assert keys[j] == keys[1..][j - 1]; }
          }
        }
      }
      if exists i :: 0 <= i < |keys| && GetSpkiHeader(table, keys[i]) == Err(e)
           && forall j :: 0 <= j < i ==> KeyPassedOver(table, keys[j], pins, sha256, base64)
      {
        var i :| 0 <= i < |keys| && GetSpkiHeader(table, keys[i]) == Err(e)
          && forall j :: 0 <= j < i ==> KeyPassedOver(table, keys[j], pins, sha256, base64);
        if i > 0 {
          assert KeyPassedOver(table, keys[0], pins, sha256, base64);
          assert GetSpkiHeader(table, keys[1..][i - 1]) == Err(e);
          assert forall j :: 0 <= j < i - 1 ==> KeyPassedOver(table, keys[1..][j], pins, sha256, base64) by {
            forall j | 0 <= j < i - 1 ensures KeyPassedOver(table, keys[1..][j], pins, sha256, base64) {
              assert keys[1..][j] == keys[j + 1];
            }
          }
        }
      }
    }
  }

  /** The verdict of `evaluate(_:forHost:)`. */
  function EvaluateSpec(policy: PinPolicy, table: HeaderTable, pins: Option<PinMap>, host: string,
                        keys: seq<ServerKey>, sha256: Bytes -> Bytes, base64: Bytes -> string): Outcome<TrustError>
  {
    match pins
    case None => Fail(NoPublicKeysFound)
    case Some(p) =>
      match PinsFor(policy, p, host)
      case Unpinned => Pass
      case HostUnknown => Fail(PinMismatch)
      case CheckAgainst(list) =>
        match KeyScan(table, keys, list, sha256, base64)
        case Err(e) => Fail(SpkiFailure(e))
        case Ok(matched) => if matched then Pass else Fail(PinMismatch)
  }

  /** Pinning fails closed: the evaluation passes only when the host is
      listed without pins (and, under the managed-trust rule, no "*" entry
      exists) or a presented key, reached before any key that cannot be
      built, has a pinned fingerprint; and in both situations it passes. */
  lemma EvaluationPassesOnlyForPinnedKeys(policy: PinPolicy, table: HeaderTable, pins: Option<PinMap>, host: string,
                                          keys: seq<ServerKey>, sha256: Bytes -> Bytes, base64: Bytes -> string)
    ensures pins.None? ==> EvaluateSpec(policy, table, pins, host, keys, sha256, base64) == Fail(NoPublicKeysFound)
    ensures pins.Some? && host !in pins.value ==>
      EvaluateSpec(policy, table, pins, host, keys, sha256, base64) == Fail(PinMismatch)
    ensures pins.Some? && host in pins.value && pins.value[host] == []
            && (policy == HostPinsOnly || ManagedTrustHost !in pins.value) ==>
      EvaluateSpec(policy, table, pins, host, keys, sha256, base64) == Pass
    ensures pins.Some? && PinsFor(policy, pins.value, host).CheckAgainst? ==>
      var list := PinsFor(policy, pins.value, host).pins;
      (EvaluateSpec(policy, table, pins, host, keys, sha256, base64) == Pass <==>
        exists i :: 0 <= i < |keys| && KeyMatches(table, keys[i], list, sha256, base64)
          && forall j :: 0 <= j < i ==> KeyPassedOver(table, keys[j], list, sha256, base64))
  {
    if pins.Some? && PinsFor(policy, pins.value, host).CheckAgainst? {
      var list := PinsFor(policy, pins.value, host).pins;
      ScanMatchIffMatchingKey(table, keys, list, sha256, base64);
    }
  }

  /** An empty "*" list behind an unpinned host lets no key through. */
  lemma EmptyManagedTrustRejects(table: HeaderTable, pins: PinMap, host: string,
                                 keys: seq<ServerKey>, sha256: Bytes -> Bytes, base64: Bytes -> string)
    requires host in pins && pins[host] == [] && ManagedTrustHost in pins && pins[ManagedTrustHost] == []
    ensures EvaluateSpec(ManagedTrustFallback, table, Some(pins), host, keys, sha256, base64).Fail?
  {
    ScanMatchIffMatchingKey(table, keys, [], sha256, base64);
  }

  /** The framework rule without the "*" fallback: the evaluation passes
      exactly when the host is listed and either has no pins or presents,
      before any key that cannot be built, a key with one of its pins. */
  lemma HostPinsOnlyEvaluation(table: HeaderTable, pins: Option<PinMap>, host: string,
                               keys: seq<ServerKey>, sha256: Bytes -> Bytes, base64: Bytes -> string)
    ensures EvaluateSpec(HostPinsOnly, table, pins, host, keys, sha256, base64) == Pass <==>
      && pins.Some? && host in pins.value
      && (|| pins.value[host] == []
          || exists i :: 0 <= i < |keys| && KeyMatches(table, keys[i], pins.value[host], sha256, base64)
               && forall j :: 0 <= j < i ==> KeyPassedOver(table, keys[j], pins.value[host], sha256, base64))
  {
    if pins.Some? && host in pins.value {
      ScanMatchIffMatchingKey(table, keys, pins.value[host], sha256, base64);
    }
  }

  /** The trust manager's choice for a host. */
  datatype EvaluatorChoice = ApproovEvaluator | DefaultEvaluator

  /** `serverTrustEvaluator(forHost:)`: the Approov evaluator for a host the
      pins list (in the shapes-app copy, only if it has pins or a "*" entry
      exists); otherwise defer to the session's default manager. */
  function ServerTrustEvaluator(policy: PinPolicy, pins: Option<PinMap>, host: string): (r: EvaluatorChoice)
    ensures pins.None? ==> r == DefaultEvaluator
    ensures pins.Some? && policy == HostPinsOnly ==> (r == ApproovEvaluator <==> host in pins.value)
    ensures pins.Some? && policy == ManagedTrustFallback ==>
      (r == ApproovEvaluator <==>
        host in pins.value && (|pins.value[host]| > 0 || ManagedTrustHost in pins.value))
  {
    match pins
    case None => DefaultEvaluator
    case Some(p) =>
      if host in p && (policy == HostPinsOnly || |p[host]| > 0 || ManagedTrustHost in p)
      then ApproovEvaluator else DefaultEvaluator
  }

  /** With the same pin snapshot, the evaluator the manager picks never meets
      an unlisted host; under the managed-trust rule it always compares keys
      against a list, so its pass means a presented key is pinned. */
  lemma ChosenEvaluatorSeesListedHost(policy: PinPolicy, table: HeaderTable, pins: PinMap, host: string,
                                      keys: seq<ServerKey>, sha256: Bytes -> Bytes, base64: Bytes -> string)
    requires ServerTrustEvaluator(policy, Some(pins), host) == ApproovEvaluator
    ensures !PinsFor(policy, pins, host).HostUnknown?
    ensures policy == ManagedTrustFallback ==> PinsFor(policy, pins, host).CheckAgainst?
    ensures policy == ManagedTrustFallback &&
            EvaluateSpec(policy, table, Some(pins), host, keys, sha256, base64) == Pass ==>
      exists i :: 0 <= i < |keys| && KeyMatches(table, keys[i], PinsFor(policy, pins, host).pins, sha256, base64)
  {
    if policy == ManagedTrustFallback {
      ScanMatchIffMatchingKey(table, keys, PinsFor(policy, pins, host).pins, sha256, base64);
    }
  }

  /** ApproovTrustEvaluator. The `pkiHeaders` table, a static dictionary in
      the source, is a field here. */
  class TrustEvaluator {
    const policy: PinPolicy
    var pkiHeaders: HeaderTable

    /** `init()`, which runs `initializePKI`. */
    constructor (policy: PinPolicy)
      ensures this.policy == policy
      ensures pkiHeaders == PkiTable()
    {
      this.policy := policy;
      pkiHeaders := map[];
      new;
      InitializePKI();
    }

    /** `initializePKI`: install the RSA and EC dictionaries. */
    method InitializePKI()
      modifies this`pkiHeaders
      ensures pkiHeaders == old(pkiHeaders)[KeyTypeRSA := RsaHeaders()][KeyTypeECSECPrimeRandom := EcHeaders()]
    {
      var rsaDict: map<int, Bytes> := map[];
      rsaDict := rsaDict[2048 := Rsa2048SpkiHeader];
      rsaDict := rsaDict[4096 := Rsa4096SpkiHeader];
      var eccDict: map<int, Bytes> := map[];
      eccDict := eccDict[256 := EcdsaSecp256r1SpkiHeader];
      eccDict := eccDict[384 := EcdsaSecp384r1SpkiHeader];
      pkiHeaders := pkiHeaders[KeyTypeRSA := rsaDict];
      pkiHeaders := pkiHeaders[KeyTypeECSECPrimeRandom := eccDict];
    }

    /** `evaluate(_:forHost:)`: `pins` is what `getPins` returns and `keys`
      the server trust's public keys in order. */
    method Evaluate(pins: Option<PinMap>, host: string, keys: seq<ServerKey>,
                    sha256: Bytes -> Bytes, base64: Bytes -> string) returns (r: Outcome<TrustError>)
      ensures r == EvaluateSpec(policy, pkiHeaders, pins, host, keys, sha256, base64)
    {
      if pins.None? {
        return Fail(NoPublicKeysFound);
      }
      var certHashes := pins.value;
      if host in certHashes {
        var actualCertHashList := certHashes[host];
        if |actualCertHashList| == 0 {
          if policy == HostPinsOnly || ManagedTrustHost !in certHashes {
            return Pass;
          }
          actualCertHashList := certHashes[ManagedTrustHost];
        }
        assert PinsFor(policy, certHashes, host) == CheckAgainst(actualCertHashList);
        var i := 0;
        while i < |keys|
          invariant 0 <= i <= |keys|
          invariant KeyScan(pkiHeaders, keys, actualCertHashList, sha256, base64)
                 == KeyScan(pkiHeaders, keys[i..], actualCertHashList, sha256, base64)
        {
          assert keys[i..][1..] == keys[i + 1..];
          var spki := GetSpkiHeader(pkiHeaders, keys[i]);
          if spki.Err? {
            return Fail(SpkiFailure(spki.error));
          }
          var publicKeyHashBase64 := base64(sha256(spki.value));
          var j := 0;
          while j < |actualCertHashList|
            invariant 0 <= j <= |actualCertHashList|
            invariant publicKeyHashBase64 !in actualCertHashList[..j]
          {
            if publicKeyHashBase64 == actualCertHashList[j] {
              return Pass;
            }
            j := j + 1;
          }
          assert actualCertHashList[..j] == actualCertHashList;
          i := i + 1;
        }
      }
      r := Fail(PinMismatch);
    }
  }
}
