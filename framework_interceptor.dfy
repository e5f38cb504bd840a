/** The framework copy's ApproovInterceptor: SDK initialisation with a
    dynamic configuration persisted in the user defaults store, the
    mandatory bind header, and the token fetch that decides whether a
    request proceeds. Its token header name is fixed and its only error for
    requests is a runtime error. The user defaults store is an abstract
    string map here. */
module FrameworkInterceptor {
  import opened Common

  /** The user defaults key of the persisted dynamic configuration. */
  const DynamicConfigKey: string := "approov-dynamic"

  /** The fixed token header. */
  const TokenHeader: string := "Approov-Token"

  /** ApproovError of the framework copy, without the message texts. */
  datatype FrameworkError = InitializationFailure | ConfigurationFailure | RuntimeError

  /** ApproovData; `dataHash` is the value handed to `setDataHashInToken`. */
  datatype ApproovData = ApproovData(
    request: Request,
    decision: Decision,
    error: Option<FrameworkError>,
    dataHash: Option<string>)

  /** The user defaults database, as far as strings under a key go. */
  type Store = map<string, string>

  /** `readDynamicApproovConfig` on a store. */
  function ReadDynamicConfig(store: Store): Option<string> {
    if DynamicConfigKey in store then Some(store[DynamicConfigKey]) else None
  }

  /** `storeDynamicConfig(newConfig:)` on a store: its argument is ignored
      and what `fetchConfig` returns (`fetched`) is written, if anything. */
  function StoreDynamicConfig(store: Store, fetched: Option<string>): Store {
    if fetched.Some? then store[DynamicConfigKey := fetched.value] else store
  }

  /** Storing and then reading gives back the fetched configuration, whole;
      nothing fetched leaves the store as it was; other keys never change. */
  lemma StoreThenReadRoundTrip(store: Store, fetched: Option<string>)
    ensures fetched.Some? ==> ReadDynamicConfig(StoreDynamicConfig(store, fetched)) == fetched
    ensures fetched.None? ==> StoreDynamicConfig(store, fetched) == store
    ensures forall k :: k != DynamicConfigKey ==>
      (k in StoreDynamicConfig(store, fetched) <==> k in store)
    ensures forall k :: k != DynamicConfigKey && k in store ==> StoreDynamicConfig(store, fetched)[k] == store[k]
  {
  }

  /** A bind header is set but the request does not carry it. */
  predicate BindHeaderMissing(bindHeader: string, request: Request) {
    bindHeader != "" && bindHeader !in request.headers
  }

  /** What `fetchApproovToken` returns. */
  function TokenResponse(bindHeader: string, tokenPrefix: string, request: Request, result: TokenFetchResult)
    : (d: ApproovData)
    ensures BindHeaderMissing(bindHeader, request) ==>
      d == ApproovData(request, ShouldFail, Some(RuntimeError), None)
    ensures !BindHeaderMissing(bindHeader, request) ==>
      && d.decision == TokenDecision(result.status)
      && d.dataHash == (if bindHeader != "" then Some(request.headers[bindHeader]) else None)
    ensures d.decision != ShouldProceed ==> d.error == Some(RuntimeError) && d.request == request
    ensures d.decision == ShouldProceed ==>
      && d.error.None?
      && d.request == (if result.status == Success
                       then request.(headers := request.headers[TokenHeader := tokenPrefix + result.token])
                       else request)
  {
    if BindHeaderMissing(bindHeader, request) then ApproovData(request, ShouldFail, Some(RuntimeError), None)
    else
      var dataHash := if bindHeader != "" then Some(request.headers[bindHeader]) else None;
      match TokenDecision(result.status)
      case ShouldProceed =>
        var r := if result.status == Success
                 then request.(headers := request.headers[TokenHeader := tokenPrefix + result.token])
                 else request;
        ApproovData(r, ShouldProceed, None, dataHash)
      case ShouldRetry => ApproovData(request, ShouldRetry, Some(RuntimeError), dataHash)
      case ShouldFail => ApproovData(request, ShouldFail, Some(RuntimeError), dataHash)
  }

  /** The store after `fetchApproovToken`. `checked` is the `fetchConfig`
      answer tested before `storeDynamicConfig` is called, and `stored` the
      answer `storeDynamicConfig` asks for and writes. A reported config
      change is persisted unless the bind header check returned before the
      token fetch. */
  function StoreAfterFetch(bindHeader: string, request: Request, result: TokenFetchResult,
                           checked: Option<string>, stored: Option<string>, store: Store): (s: Store)
    ensures BindHeaderMissing(bindHeader, request) || !result.isConfigChanged || checked.None? || stored.None?
      ==> s == store
    ensures !BindHeaderMissing(bindHeader, request) && result.isConfigChanged && checked.Some? && stored.Some? ==>
      ReadDynamicConfig(s) == stored
  {
    if !BindHeaderMissing(bindHeader, request) && result.isConfigChanged && checked.Some?
    then StoreDynamicConfig(store, stored)
    else store
  }

  /** `adapt` hands the request on exactly when the decision is to proceed,
      and otherwise fails with the runtime error; it never force-unwraps a
      nil error. */
  lemma AdaptSucceedsIffProceed(bindHeader: string, tokenPrefix: string, request: Request, result: TokenFetchResult)
    ensures var d := TokenResponse(bindHeader, tokenPrefix, request, result);
      var a := Adapt(d.request, d.decision, d.error);
      && (a.Adapted? <==> !BindHeaderMissing(bindHeader, request) && TokenDecision(result.status) == ShouldProceed)
      && (!a.Adapted? ==> a == Refused(RuntimeError))
  {
  }

  /** The result of `init?`: an interceptor, nil, or the crash of
      force-unwrapping a nil `fetchConfig` on first launch. */
  datatype InitResult = Created | Failed | Crashed

  /** The SDK's `initialize(config, updateConfig:)`, true when it accepts. */
  type SdkInitialise = (string, Option<string>) -> bool

  datatype InitState = InitState(initialised: bool, store: Store)

  /** What `init?` does: `initialConfig` is the bundle's configuration file
      (None when it cannot be read). On first launch `fetchConfig` is asked
      twice: `unwrapped` is the answer that is force-unwrapped, and `stored`
      the answer `storeDynamicConfig` asks for and writes. */
  function InitSpec(s: InitState, initialConfig: Option<string>, sdkInitialise: SdkInitialise,
                    unwrapped: Option<string>, stored: Option<string>): (r: (InitResult, InitState))
    ensures s.initialised ==> r == (Created, s)
    ensures !s.initialised && initialConfig.None? ==> r == (Failed, s)
    ensures !s.initialised && initialConfig.Some? ==>
      var accepted := sdkInitialise(initialConfig.value, ReadDynamicConfig(s.store));
      && (r.0 == Failed <==> !accepted)
      && (r.1.initialised <==> accepted)
      && (r.0 == Crashed <==> accepted && ReadDynamicConfig(s.store).None? && unwrapped.None?)
      && (ReadDynamicConfig(s.store).Some? || !accepted || unwrapped.None? || stored.None? ==> r.1.store == s.store)
      && (accepted && ReadDynamicConfig(s.store).None? && unwrapped.Some? ==>
            r == (Created, InitState(true, StoreDynamicConfig(s.store, stored))))
  {
    if s.initialised then (Created, s)
    else if initialConfig.None? then (Failed, s)
    else
      var dynamicConfig := ReadDynamicConfig(s.store);
      if !sdkInitialise(initialConfig.value, dynamicConfig) then (Failed, s)
      else if dynamicConfig.None? then
        if unwrapped.None? then (Crashed, InitState(true, s.store))
        else (Created, InitState(true, StoreDynamicConfig(s.store, stored)))
      else (Created, InitState(true, s.store))
  }

  /** When the SDK reports a configuration to `storeDynamicConfig`, the first
      launch persists it, and the next launch initialises the SDK with
      exactly that configuration and does not write the store again. */
  lemma FirstLaunchBootstrapsNextLaunch(store: Store, initialConfig: string, sdkInitialise: SdkInitialise,
                                        unwrapped: string, stored: string,
                                        laterUnwrapped: Option<string>, laterStored: Option<string>)
    requires ReadDynamicConfig(store).None?
    requires sdkInitialise(initialConfig, None)
    ensures var (r1, s1) := InitSpec(InitState(false, store), Some(initialConfig), sdkInitialise,
                                     Some(unwrapped), Some(stored));
      && r1 == Created
      && ReadDynamicConfig(s1.store) == Some(stored)
      && var (r2, s2) := InitSpec(InitState(false, s1.store), Some(initialConfig), sdkInitialise,
                                  laterUnwrapped, laterStored);
         && (r2 == Created <==> sdkInitialise(initialConfig, Some(stored)))
         && s2.store == s1.store
  {
  }

  /** When the second `fetchConfig` answer is nil, the first launch succeeds
      but stores nothing, so the next launch initialises the SDK without a
      dynamic configuration and bootstraps again. */
  lemma FirstLaunchWithoutStoredConfigBootstrapsAgain(store: Store, initialConfig: string,
                                                      sdkInitialise: SdkInitialise, unwrapped: string,
                                                      laterUnwrapped: Option<string>, laterStored: Option<string>)
    requires ReadDynamicConfig(store).None?
    requires sdkInitialise(initialConfig, None)
    ensures var (r1, s1) := InitSpec(InitState(false, store), Some(initialConfig), sdkInitialise, Some(unwrapped), None);
      && r1 == Created
      && s1.store == store
      && var (r2, s2) := InitSpec(InitState(false, s1.store), Some(initialConfig), sdkInitialise,
                                  laterUnwrapped, laterStored);
         && (r2 == Crashed <==> laterUnwrapped.None?)
         && (laterUnwrapped.Some? ==> s2.store == StoreDynamicConfig(store, laterStored))
  {
  }

  /** The framework ApproovInterceptor's static state and the user defaults
      store it writes. */
  class ApproovInterceptor {
    var approovSDKInitialised: bool
    var bindHeader: string
    var approovTokenPrefix: string
    var userDefaults: Store

    /** The state at process start over a persisted store. */
    constructor (persisted: Store)
      ensures !approovSDKInitialised && bindHeader == "" && approovTokenPrefix == ""
      ensures userDefaults == persisted
    {
      approovSDKInitialised := false;
      bindHeader := "";
      approovTokenPrefix := "";
      userDefaults := persisted;
    }

    /** `readDynamicApproovConfig()`. */
    function ReadDynamicApproovConfig(): (r: Option<string>)
      reads this
      ensures r.Some? <==> DynamicConfigKey in userDefaults
      ensures r.Some? ==> r.value == userDefaults[DynamicConfigKey]
    {
      ReadDynamicConfig(userDefaults)
    }

    /** `storeDynamicConfig(newConfig:)`; `fetched` is what `fetchConfig`
        returns inside it. */
    method StoreDynamicConfigFrom(newConfig: string, fetched: Option<string>)
      modifies this`userDefaults
      ensures userDefaults == StoreDynamicConfig(old(userDefaults), fetched)
      ensures fetched.Some? ==> ReadDynamicApproovConfig() == fetched
    {
      if fetched.Some? {
        userDefaults := userDefaults[DynamicConfigKey := fetched.value];
      }
    }

    /** The `bindHeader` setter. */
    method SetBindHeader(header: string)
      modifies this`bindHeader
      ensures bindHeader == header
    {
      bindHeader := header;
    }

    /** `init?(prefetchToken:)`: `unwrapped` is the `fetchConfig` answer it
        force-unwraps and `stored` the one `storeDynamicConfig` writes. */
    method Init(initialConfig: Option<string>, sdkInitialise: SdkInitialise,
                unwrapped: Option<string>, stored: Option<string>)
      returns (r: InitResult)
      modifies this`approovSDKInitialised, this`userDefaults
      ensures (r, InitState(approovSDKInitialised, userDefaults))
           == InitSpec(old(InitState(approovSDKInitialised, userDefaults)), initialConfig, sdkInitialise,
                       unwrapped, stored)
    {
      if !approovSDKInitialised {
        if initialConfig.None? {
          return Failed;
        }
        var dynamicConfigString := ReadDynamicApproovConfig();
        if !sdkInitialise(initialConfig.value, dynamicConfigString) {
          return Failed;
        }
        approovSDKInitialised := true;
        if dynamicConfigString.None? {
          if unwrapped.None? {
            return Crashed;
          }
          StoreDynamicConfigFrom(unwrapped.value, stored);
        }
      }
      r := Created;
    }

    /** `fetchApproovToken(request:)`: `tokenResult` is what
        `fetchTokenAndWait` returns, `checked` the `fetchConfig` answer tested
        after a config change and `stored` the one `storeDynamicConfig`
        writes. */
    method FetchApproovToken(request: Request, tokenResult: TokenFetchResult,
                             checked: Option<string>, stored: Option<string>)
      returns (returnData: ApproovData)
      modifies this`userDefaults
      ensures returnData == TokenResponse(bindHeader, approovTokenPrefix, request, tokenResult)
      ensures userDefaults == StoreAfterFetch(bindHeader, request, tokenResult, checked, stored, old(userDefaults))
    {
      returnData := ApproovData(request, ShouldFail, None, None);
      if bindHeader != "" {
        if bindHeader in request.headers {
          returnData := returnData.(dataHash := Some(request.headers[bindHeader]));
        } else {
          returnData := returnData.(error := Some(RuntimeError));
          return;
        }
      }
      if tokenResult.isConfigChanged {
        if checked.Some? {
          StoreDynamicConfigFrom(checked.value, stored);
        }
      }
      var status := tokenResult.status;
      if status == Success {
        returnData := returnData.(decision := ShouldProceed);
        returnData := returnData.(request := request.(headers :=
          request.headers[TokenHeader := approovTokenPrefix + tokenResult.token]));
      } else if status == NoNetwork || status == PoorNetwork || status == MitmDetected {
        returnData := returnData.(decision := ShouldRetry, error := Some(RuntimeError));
      } else if status == UnprotectedURL || status == UnknownURL || status == NoApproovService {
        returnData := returnData.(decision := ShouldProceed);
      } else {
        returnData := returnData.(error := Some(RuntimeError), decision := ShouldFail);
      }
    }
  }
}
