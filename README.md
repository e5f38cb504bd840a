# Approov request interceptor for Alamofire: a Dafny model

The repository ships two copies of an Alamofire `RequestInterceptor` built on
the Approov SDK. The shapes-app copy has an `ApproovService` (SDK
initialisation, token header and bind header settings, secure-string header
substitution, and the classifiers `fetchSecureString`, `fetchCustomJWT` and
`precheck`). The framework copy has an `ApproovInterceptor` that persists the
SDK's dynamic configuration in the user defaults database. Both copies have an
`ApproovTrustEvaluator`, which pins server public keys against the SDK's
per-host pins, and an `ApproovTrustManager`, which chooses that evaluator.

Before each request the interceptor fetches an Approov token. The token
status decides whether the request proceeds, is retried or fails. On the
proceed path the token goes into a header. In the shapes-app copy, header
values that carry a secure-string key behind a required prefix are then
replaced by the looked-up secure string.

Modules:

- `Common`: the SDK's token fetch result and status, the three-way decision
  both copies share, and `adapt`.
- `Spki`: the DER header table and how the SubjectPublicKeyInfo is rebuilt
  from a key (section 4.1.2.7 of RFC 5280).
- `Pinning`: the pin check (a pin is the base64 SHA-256 of an SPKI, as in
  section 2.4 of RFC 7469) and the choice of trust evaluator. A policy flag
  selects the shapes-app rule (an unpinned host falls back to the `"*"` pins)
  or the framework rule (no fallback).
- `ShapesErrors`: the shapes-app error taxonomy and the three classifiers.
- `Substitution`: one rule's step and the whole substitution pass.
- `ShapesService`: `ApproovService` as a class, with
  `updateRequestWithApproov` proved against its specification function, and
  the initialisation state machine.
- `FrameworkInterceptor`: the framework `ApproovInterceptor` as a class, with
  its token fetch, `init?`, and dynamic-configuration persistence.

The Approov SDK is not part of this model. Each SDK call becomes an input:

- the token fetch result is a record argument;
- the secure-string and custom-JWT lookups are function parameters;
- `getPins` is an optional pin map;
- each `fetchConfig` call is an optional string of its own;
- the SDK's `initialize` is a boolean (shapes-app) or a function of the two
  configuration strings (framework).

SHA-256, base64 and the Security framework's key functions are also
parameters, or fields of the key record. Swift's dictionary iteration order
over `substitutionHeaders` is an argument `order`, which must list every
rule once. Process-wide static state becomes the fields of one object.

## Model

| member | source | states |
|---|---|---|
| `Common.TokenDecision` | shapes-app/ApproovShapes/ApproovInterceptor.swift:394-418 | success, unprotectedURL, unknownURL and noApproovService proceed; exactly the three network statuses retry; every other status fails. The framework switch (framework/ApproovInterceptor.swift:358-380) has the same branches |
| `Common.Adapt` | shapes-app/ApproovShapes/ApproovInterceptor.swift:218-225 | the completion gets the request unchanged exactly when the decision is to proceed, and otherwise the carried error; the force-unwrap crashes exactly when a non-proceed decision has no error |
| `Spki.PublicKeyInfoHeaderForKey` | shapes-app/ApproovShapes/ApproovInterceptor.swift:158-171 | missing attributes are an error of their own; the header is found exactly when both attributes are present and the table has that type and length, and it is that table entry |
| `Spki.GetSpkiHeader` | shapes-app/ApproovShapes/ApproovInterceptor.swift:129-142 | the SPKI is the table header followed by the exported key bytes; the header error comes first, then the not-exportable error |
| `Spki.SupportedKindsExactly` | shapes-app/ApproovShapes/ApproovInterceptor.swift:63-72 | with the table that `initializePKI` builds, an SPKI exists exactly for RSA 2048/4096 and EC 256/384 keys whose bytes export |
| `Spki.HeaderLengthsFitKeys` | shapes-app/ApproovShapes/ApproovInterceptor.swift:41-56 | each of the four constant headers opens a DER SEQUENCE and a BIT STRING whose declared lengths are exactly filled by a raw key of the intended size |
| `Spki.SpkiDeterminesKey` | shapes-app/ApproovShapes/ApproovInterceptor.swift:132-138 | equal SPKIs come from keys of the same type and length with the same bytes, so a pin for one key kind cannot match another |
| `Pinning.PinsFor` | shapes-app/ApproovShapes/ApproovInterceptor.swift:88-101 | an unlisted host is rejected; a host's own non-empty list is used; an empty list means no check, unless the shapes-app rule applies and `"*"` is listed, in which case the `"*"` list is used |
| `Pinning.ScanMatchIffMatchingKey` | shapes-app/ApproovShapes/ApproovInterceptor.swift:103-118 | the key scan matches exactly when some key has a pinned fingerprint and every key before it was built and passed over, so the first match short-circuits |
| `Pinning.ScanErrorIsFirstUnbuildableKey` | shapes-app/ApproovShapes/ApproovInterceptor.swift:104-116 | the scan fails with an SPKI error exactly when some key cannot be built and every key before it was built and passed over |
| `Pinning.EvaluationPassesOnlyForPinnedKeys` | shapes-app/ApproovShapes/ApproovInterceptor.swift:81-126 | nil pins fail with no public keys found; an unlisted host is a mismatch; an unpinned host passes; otherwise the evaluation passes exactly when a presented key, reached before any unbuildable key, is pinned |
| `Pinning.EmptyManagedTrustRejects` | shapes-app/ApproovShapes/ApproovInterceptor.swift:93-120 | an unpinned host behind an empty `"*"` list lets no key through |
| `Pinning.HostPinsOnlyEvaluation` | framework/ApproovInterceptor.swift:80-117 | under the framework rule, the evaluation passes exactly when the host is listed and either has no pins or presents, before any unbuildable key, a key with one of its pins |
| `Pinning.ServerTrustEvaluator` | shapes-app/ApproovShapes/ApproovInterceptor.swift:189-207 | without pins, the default manager is used; the Approov evaluator is chosen exactly for a listed host that has pins or when `"*"` is listed; under the framework rule (framework/ApproovInterceptor.swift:180-190), exactly for a listed host |
| `Pinning.ChosenEvaluatorSeesListedHost` | shapes-app/ApproovShapes/ApproovInterceptor.swift:198-201 | a host the manager hands to the Approov evaluator is never an unlisted host; under the shapes-app rule it is always checked against a list, so a pass means a presented key is pinned |
| `Pinning.TrustEvaluator.constructor` | shapes-app/ApproovShapes/ApproovInterceptor.swift:74-76 | a new evaluator holds exactly the four-entry header table |
| `Pinning.TrustEvaluator.InitializePKI` | shapes-app/ApproovShapes/ApproovInterceptor.swift:63-72 | the RSA and EC dictionaries are installed under their key types; other entries are kept |
| `Pinning.TrustEvaluator.Evaluate` | shapes-app/ApproovShapes/ApproovInterceptor.swift:81-126 | the nested loops with early returns compute the specified verdict, under either policy; the framework evaluator (framework/ApproovInterceptor.swift:80-117) is the no-fallback policy |
| `ShapesErrors.FetchSecureString` | shapes-app/ApproovShapes/ApproovInterceptor.swift:503-532 | success or an unknown key returns the secure string, which may be nil; disabled is a configuration error; network statuses are a networking error; rejected carries ARC and reasons; everything else is permanent |
| `ShapesErrors.FetchCustomJwt` | shapes-app/ApproovShapes/ApproovInterceptor.swift:548-572 | only success returns the token; a bad payload and other statuses are permanent; disabled is a configuration error; network statuses retry; rejected carries ARC and reasons |
| `ShapesErrors.Precheck` | shapes-app/ApproovShapes/ApproovInterceptor.swift:584-601 | the lookup of the dummy key passes exactly on success or an unknown key; otherwise a rejection, networking or permanent error by status |
| `ShapesErrors.PrecheckIsDummyLookup` | shapes-app/ApproovShapes/ApproovInterceptor.swift:586-600 | `precheck` passes exactly when `fetchSecureString` of the dummy key returns, and fails with the same error except for a disabled feature |
| `Substitution.LookupKey` | shapes-app/ApproovShapes/ApproovInterceptor.swift:432-434 | the key is non-empty and the value is the prefix followed by the key |
| `Substitution.RuleStep` | shapes-app/ApproovShapes/ApproovInterceptor.swift:430-472 | a rule fires only for a present value that starts with the prefix and is longer; the header is replaced by prefix plus secure string exactly on success with a string for a known domain; an unknown key keeps it; the errors follow the in-loop taxonomy |
| `Substitution.PassAbortsAtFirstFailingRule` | shapes-app/ApproovShapes/ApproovInterceptor.swift:427-476 | the pass aborts with an error exactly when a rule aborts with it and no earlier rule in iteration order aborts |
| `Substitution.CompletedPassHeaders` | shapes-app/ApproovShapes/ApproovInterceptor.swift:426-478 | a completed pass sets each replacing rule's header to its value, keeps every other header, adds nothing else, and so does not depend on the order |
| `Substitution.IllegalPassReleasesNothing` | shapes-app/ApproovShapes/ApproovInterceptor.swift:437-444 | for an unknown URL, no secure string ever reaches a header: the pass aborts or changes nothing |
| `Substitution.RuleStepAgreesWithFetchSecureString` | shapes-app/ApproovShapes/ApproovInterceptor.swift:437-471 | the in-loop lookup and `fetchSecureString` give the same networking and rejection errors; disabled is permanent in the loop; a replacement needs a successful lookup with a string |
| `ShapesService.BindingValue` | shapes-app/ApproovShapes/ApproovInterceptor.swift:376-386 | the data hash is the bind header's value exactly when a bind header is set and the request carries it; a missing one is not an error |
| `ShapesService.UpdateSpec` | shapes-app/ApproovShapes/ApproovInterceptor.swift:373-482 | the decision is the token decision; the URL is kept; retry and fail carry a networking or permanent error and the original request; on the proceed path the error is exactly the error the substitution pass aborts with, if any, and the token-stage request is returned without substitutions; an unknown URL never changes the request |
| `ShapesService.ProceedHeadersAreSubstituted` | shapes-app/ApproovShapes/ApproovInterceptor.swift:420-481 | without an error, the returned headers are the token-stage headers with exactly the replacing rules' values substituted, and no header is added or dropped |
| `ShapesService.AdaptProceedsIffTokenProceeds` | shapes-app/ApproovShapes/ApproovInterceptor.swift:218-225 | `adapt` never crashes, and hands on the updated request exactly when the token status proceeds |
| `ShapesService.SubstitutionErrorIsSwallowed` | shapes-app/ApproovShapes/ApproovInterceptor.swift:437-478 | a networking error of a substitution lookup leaves the decision at proceed, and `adapt` delivers the request with the placeholder value |
| `ShapesService.CorrectedUpdateSpec` | shapes-app/ApproovShapes/ApproovInterceptor.swift:437-478 | with the correction, `adapt` succeeds exactly when there is no error, a substitution networking error retries and any other error fails |
| `ShapesService.InitTransition` | shapes-app/ApproovShapes/ApproovInterceptor.swift:248-279 | every failure is an initialisation error and keeps the flag; the flag ends up set exactly when it was set or a given config initialises the SDK; a repeat call passes only with no config or the recorded one |
| `ShapesService.RepeatInitialiseWithSameConfigFails` | shapes-app/ApproovShapes/ApproovInterceptor.swift:251-258 | as written, a second `initialize` with the config that succeeded the first time fails |
| `ShapesService.InitTransitionCorrected` | shapes-app/ApproovShapes/ApproovInterceptor.swift:248-279 | the corrected state machine records the config on the first success; a repeat call never changes the state |
| `ShapesService.CorrectedInitialiseIsIdempotent` | shapes-app/ApproovShapes/ApproovInterceptor.swift:251-258 | with the correction, initialising again with the same config or with none passes, and initialising with a different config fails |
| `ShapesService.ApproovService.constructor` | shapes-app/ApproovShapes/ApproovInterceptor.swift:233-242 | process start: not initialised, no rules, no bind header, token header "Approov-Token" with an empty prefix |
| `ShapesService.ApproovService.Initialize` | shapes-app/ApproovShapes/ApproovInterceptor.swift:248-279 | the flag and the result follow the as-written state machine; nothing assigns the recorded config |
| `ShapesService.ApproovService.SetBindHeader` | shapes-app/ApproovShapes/ApproovInterceptor.swift:285-296 | the bind header becomes the given name |
| `ShapesService.ApproovService.SetApproovTokenHeaderAndPrefix` | shapes-app/ApproovShapes/ApproovInterceptor.swift:305-318 | header and prefix are set together |
| `ShapesService.ApproovService.AddSubstitutionHeader` | shapes-app/ApproovShapes/ApproovInterceptor.swift:346-356 | the rule for the header is set to the prefix, or the empty prefix when none is given, and other rules are kept |
| `ShapesService.ApproovService.RemoveSubstitutionHeader` | shapes-app/ApproovShapes/ApproovInterceptor.swift:361-367 | the header's rule is removed if present, and other rules are kept |
| `ShapesService.ApproovService.UpdateRequestWithApproov` | shapes-app/ApproovShapes/ApproovInterceptor.swift:373-482 | the method's result is the specified response for the current settings and rules |
| `ShapesService.ApproovService.SubstituteHeaders` | shapes-app/ApproovShapes/ApproovInterceptor.swift:422-479 | the loop with early returns computes the specified pass, reading the snapshot and writing the copy |
| `FrameworkInterceptor.StoreThenReadRoundTrip` | framework/ApproovInterceptor.swift:302-306 | reading after storing gives the fetched config back; nothing fetched leaves the store unchanged; no other key changes |
| `FrameworkInterceptor.TokenResponse` | framework/ApproovInterceptor.swift:327-383 | a set bind header the request lacks fails with a runtime error before any token fetch; otherwise its value is the data hash and the decision is the token decision; every non-proceed result has a runtime error; success sets "Approov-Token" to prefix plus token |
| `FrameworkInterceptor.StoreAfterFetch` | framework/ApproovInterceptor.swift:350-355 | after a reported config change, if the first `fetchConfig` answer is non-nil, the answer `storeDynamicConfig` gets is written, if non-nil; nothing is written when the bind header check returned first |
| `FrameworkInterceptor.AdaptSucceedsIffProceed` | framework/ApproovInterceptor.swift:388-395 | `adapt` hands on the request exactly when the bind header check passes and the token status proceeds, and otherwise fails with the runtime error, never crashing |
| `FrameworkInterceptor.InitSpec` | framework/ApproovInterceptor.swift:210-244 | an initialised SDK makes `init?` a no-op; otherwise it fails without a config file or when the SDK refuses the config; on first launch a nil first `fetchConfig` answer crashes, and otherwise the second answer, the one `storeDynamicConfig` gets, is stored if non-nil |
| `FrameworkInterceptor.FirstLaunchBootstrapsNextLaunch` | framework/ApproovInterceptor.swift:221-231 | after a successful first launch whose `storeDynamicConfig` got a config, the next launch initialises the SDK with exactly that config and does not write the store again |
| `FrameworkInterceptor.FirstLaunchWithoutStoredConfigBootstrapsAgain` | framework/ApproovInterceptor.swift:229-230 | if the second `fetchConfig` answer is nil, the first launch succeeds but stores nothing, so the next launch bootstraps again and can crash |
| `FrameworkInterceptor.ApproovInterceptor.constructor` | framework/ApproovInterceptor.swift:204-208 | process start: not initialised, empty bind header and prefix, the persisted store |
| `FrameworkInterceptor.ApproovInterceptor.ReadDynamicApproovConfig` | framework/ApproovInterceptor.swift:267-269 | the stored string under "approov-dynamic", or nothing when the key is absent |
| `FrameworkInterceptor.ApproovInterceptor.StoreDynamicConfigFrom` | framework/ApproovInterceptor.swift:302-306 | the argument is ignored; what `fetchConfig` returns is written, if anything, and can then be read back |
| `FrameworkInterceptor.ApproovInterceptor.SetBindHeader` | framework/ApproovInterceptor.swift:250-261 | the bind header becomes the given name |
| `FrameworkInterceptor.ApproovInterceptor.Init` | framework/ApproovInterceptor.swift:210-244 | the result, the flag and the store follow the specified `init?`, with the two `fetchConfig` answers as separate inputs |
| `FrameworkInterceptor.ApproovInterceptor.FetchApproovToken` | framework/ApproovInterceptor.swift:327-383 | the result is the specified response, and the store is the specified store after the fetch, with the two `fetchConfig` answers as separate inputs |

## Left out

- The Approov SDK: token fetch, secure-string and custom-JWT lookups, `getPins`, `initialize`, `fetchConfig`, `setDataHashInToken` and `setUserProperty` are inputs or are not modelled. The data hash is recorded as a result field.
- CommonCrypto SHA-256, base64 encoding, `SecKeyCopyAttributes` and `SecKeyCopyExternalRepresentation` are parameters or inputs, because they are foreign calls.
- The DispatchQueue discipline around the bind header, token header, initialiser and substitution map: the guarded values are plain fields, because the queues only serialise concurrent access.
- The asynchronous bind-header setter is modelled as a write that has completed.
- Logging (`os_log`, `NSLog`), the status message strings, the error message texts, the "lookup/definition" log label and `hostnameFromURL`: output only.
- `prefetch` and `prefetchApproovToken`: fire-and-forget calls whose result is discarded.
- `readInitialApproovConfig` and the app bundle: the initial config is an optional input. The user defaults database is a string map, and `as? String` on a non-string value is not modelled.
- `ApproovSession`, the `ApproovTrustManager` initialiser and `super.serverTrustEvaluator`: this is Alamofire wiring, and the default evaluator is the opaque outcome `DefaultEvaluator`.
- Header-name case-insensitivity of Foundation requests: headers are an exact-key map. A nil `allHTTPHeaderFields` is treated as the empty map, where no rule fires.
- `request.url!` and the force casts `as! String` and `as! Int` in `publicKeyInfoHeaderForKey`: the model assumes a URL and well-typed attributes.
- Swift's `hasPrefix` and `count` work on grapheme clusters; the model compares `seq<char>`.
- The static `pkiHeaders` table is shared by every evaluator in the source; here each evaluator has its own copy, filled the same way.
- The SDK may answer the same key differently on successive calls; the model's lookup is a fixed function per request.
- The framework's `approovTokenPrefix` has no setter in the source, so it stays empty; the model keeps it as a field with no setter.
- Three behaviours of the code that the model keeps as written:
  - a substitution error discards every substitution already made in the pass, because they go into the copy made at shapes-app/ApproovShapes/ApproovInterceptor.swift:426, which is copied back only at line 478;
  - a repeated `initialize` with the same config fails, because `approovConfigStringUsed` (shapes-app/ApproovShapes/ApproovInterceptor.swift:235) is compared at line 254 but never assigned;
  - the framework's bind header check (framework/ApproovInterceptor.swift:336) tests whether the header is present, not whether its value is non-empty.

## Findings

| source | as written | input that shows it | evidently intended | confidence | as-written member | corrected member |
|---|---|---|---|---|---|---|
| shapes-app/ApproovShapes/ApproovInterceptor.swift:235-279 | `approovConfigStringUsed` is declared and compared but never assigned, so once the SDK is initialised any non-nil config is "different" | `initialize("X")` succeeds, then `initialize("X")` fails with an initialisation error | record the config on the first success, so that repeating the same config succeeds and only a different config fails | not executed; follows from reading the code | `ShapesService.RepeatInitialiseWithSameConfigFails` | `ShapesService.CorrectedInitialiseIsIdempotent` |
| shapes-app/ApproovShapes/ApproovInterceptor.swift:437-478 | a substitution error sets `returnData.error` and returns, but the decision stays ShouldProceed, so `adapt` completes with success and the error is lost | rule ("Api-Key", "Bearer "), request header `Api-Key: Bearer abc123`, token success, and the lookup of "abc123" reports noNetwork: the request is sent with the placeholder value | a substitution error ends the request: retry on a networking error, fail otherwise | not executed; follows from reading the code | `ShapesService.SubstitutionErrorIsSwallowed` | `ShapesService.CorrectedUpdateSpec` |
