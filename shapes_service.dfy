/** The shapes-app ApproovService: the shared policy settings, SDK
    initialisation, the substitution rule map, and `updateRequestWithApproov`,
    which turns the SDK's token fetch into a decision and then applies the
    secure-string substitutions. Static state of the source is the state of
    one `ApproovService` object here. */
module ShapesService {
  import opened Common
  import opened ShapesErrors
  import opened Substitution

  const DefaultTokenHeader: string := "Approov-Token"

  /** ApproovUpdateResponse; `dataHash` is the value handed to
      `setDataHashInToken` before the token fetch, if any. */
  datatype UpdateResponse = UpdateResponse(
    request: Request,
    decision: Decision,
    error: Option<ApproovError>,
    dataHash: Option<string>)

  /** The bind header's value, when a bind header is set and present. A
      missing bind header is not an error in this copy. */
  function BindingValue(bindHeader: string, request: Request): (r: Option<string>)
    ensures r.Some? <==> bindHeader != "" && bindHeader in request.headers
    ensures r.Some? ==> r.value == request.headers[bindHeader]
  {
    if bindHeader != "" && bindHeader in request.headers then Some(request.headers[bindHeader]) else None
  }

  /** The request after the token stage: the token header set on success. */
  function TokenRequest(request: Request, tokenHeader: string, tokenPrefix: string, result: TokenFetchResult): Request {
    if result.status == Success
    then request.(headers := request.headers[tokenHeader := tokenPrefix + result.token])
    else request
  }

  /** What `updateRequestWithApproov` returns, for rules iterated in `order`
      and secure strings supplied by `fetch`. */
  function UpdateSpec(bindHeader: string, tokenHeader: string, tokenPrefix: string, rules: Rules,
                      order: seq<string>, request: Request, result: TokenFetchResult,
                      fetch: SecureStringFetch): (r: UpdateResponse)
    requires forall h :: h in order ==> h in rules
    ensures r.decision == TokenDecision(result.status)
    ensures r.dataHash == BindingValue(bindHeader, request)
    ensures r.request.url == request.url
    ensures r.decision == ShouldRetry ==> r.error == Some(NetworkingError) && r.request == request
    ensures r.decision == ShouldFail ==> r.error == Some(PermanentError) && r.request == request
    ensures r.decision == ShouldProceed && r.error.Some? ==>
      r.request == TokenRequest(request, tokenHeader, tokenPrefix, result)
    ensures result.status == UnknownURL ==> r.request == request
    ensures var t := TokenRequest(request, tokenHeader, tokenPrefix, result).headers;
      var pass := SubstitutionPass(order, rules, t, t, fetch, result.status == UnknownURL);
      r.decision == ShouldProceed ==>
        && (r.error.Some? <==> pass.Aborted?)
        && (r.error.Some? ==> r.error.value == pass.error)
  {
    var dataHash := BindingValue(bindHeader, request);
    match TokenDecision(result.status)
    case ShouldRetry => UpdateResponse(request, ShouldRetry, Some(NetworkingError), dataHash)
    case ShouldFail => UpdateResponse(request, ShouldFail, Some(PermanentError), dataHash)
    case ShouldProceed =>
      var tokenRequest := TokenRequest(request, tokenHeader, tokenPrefix, result);
      var illegal := result.status == UnknownURL;
      IllegalPassReleasesNothing(order, rules, tokenRequest.headers, tokenRequest.headers, fetch);
      match SubstitutionPass(order, rules, tokenRequest.headers, tokenRequest.headers, fetch, illegal)
      case Completed(w) => UpdateResponse(tokenRequest.(headers := w), ShouldProceed, None, dataHash)
      case Aborted(e) => UpdateResponse(tokenRequest, ShouldProceed, Some(e), dataHash)
  }

  /** On the proceed path without error, the request is the token-stage
      request with exactly the replacing rules' values substituted. */
  lemma ProceedHeadersAreSubstituted(bindHeader: string, tokenHeader: string, tokenPrefix: string, rules: Rules,
                                     order: seq<string>, request: Request, result: TokenFetchResult,
                                     fetch: SecureStringFetch)
    requires IsEnumerationOf(order, rules)
    requires UpdateSpec(bindHeader, tokenHeader, tokenPrefix, rules, order, request, result, fetch).decision == ShouldProceed
    requires UpdateSpec(bindHeader, tokenHeader, tokenPrefix, rules, order, request, result, fetch).error.None?
    ensures var h := UpdateSpec(bindHeader, tokenHeader, tokenPrefix, rules, order, request, result, fetch).request.headers;
      var t := TokenRequest(request, tokenHeader, tokenPrefix, result).headers;
      var illegal := result.status == UnknownURL;
      && h.Keys == t.Keys
      && (forall k :: k in rules && StepFor(rules, k, t, fetch, illegal).Replace? ==>
            h[k] == StepFor(rules, k, t, fetch, illegal).value)
      && (forall k :: k in t && !(k in rules && StepFor(rules, k, t, fetch, illegal).Replace?) ==> h[k] == t[k])
  {
    var t := TokenRequest(request, tokenHeader, tokenPrefix, result).headers;
    CompletedPassHeaders(order, rules, t, t, fetch, result.status == UnknownURL);
  }

  /** `adapt` never force-unwraps a nil error, and hands the request on
      exactly when the token fetch decided to proceed. */
  lemma AdaptProceedsIffTokenProceeds(bindHeader: string, tokenHeader: string, tokenPrefix: string, rules: Rules,
                                      order: seq<string>, request: Request, result: TokenFetchResult,
                                      fetch: SecureStringFetch)
    requires forall h :: h in order ==> h in rules
    ensures var r := UpdateSpec(bindHeader, tokenHeader, tokenPrefix, rules, order, request, result, fetch);
      var a := Adapt(r.request, r.decision, r.error);
      && !a.Trapped?
      && (a.Adapted? <==> TokenDecision(result.status) == ShouldProceed)
      && (a.Adapted? ==> a.request == r.request)
  {
  }

  /** As written, a failed substitution leaves the decision at ShouldProceed:
      with a rule ("Api-Key", "Bearer ") and a lookup of "abc123" that
      reports no network, `adapt` hands on the request with the token but the
      placeholder value, and the networking error is lost. */
  lemma SubstitutionErrorIsSwallowed(fetch: SecureStringFetch)
    requires fetch("abc123", None).status == NoNetwork
    ensures var request := Request("https://shapes.approov.io/v3/shapes", map["Api-Key" := "Bearer abc123"]);
      var result := TokenFetchResult(Success, "tok", false, None, "", "");
      var r := UpdateSpec("", DefaultTokenHeader, "", map["Api-Key" := "Bearer "], ["Api-Key"], request, result, fetch);
      && r.error == Some(NetworkingError)
      && Adapt(r.request, r.decision, r.error)
         == Adapted(request.(headers := map["Api-Key" := "Bearer abc123", DefaultTokenHeader := "tok"]))
  {
    var request := Request("https://shapes.approov.io/v3/shapes", map["Api-Key" := "Bearer abc123"]);
    assert Fires("Bearer ", "Bearer abc123");
    assert LookupKey("Bearer ", "Bearer abc123") == "abc123";
    var t := request.headers[DefaultTokenHeader := "tok"];
    var rules := map["Api-Key" := "Bearer "];
    assert HeaderValue(t, "Api-Key") == Some("Bearer abc123");
    assert StepFor(rules, "Api-Key", t, fetch, false) == Abort(NetworkingError);
    assert SubstitutionPass(["Api-Key"], rules, t, t, fetch, false) == Aborted(NetworkingError);
    assert t == map["Api-Key" := "Bearer abc123", DefaultTokenHeader := "tok"];
    var result := TokenFetchResult(Success, "tok", false, None, "", "");
    assert "" + "tok" == "tok";
    assert TokenRequest(request, DefaultTokenHeader, "", result) == request.(headers := t);
    assert UpdateSpec("", DefaultTokenHeader, "", rules, ["Api-Key"], request, result, fetch)
        == UpdateResponse(request.(headers := t), ShouldProceed, Some(NetworkingError), None);
  }

  /** The evidently intended response: a substitution error ends the request
      with ShouldRetry for a networking error and ShouldFail otherwise. */
  function CorrectedUpdateSpec(bindHeader: string, tokenHeader: string, tokenPrefix: string, rules: Rules,
                               order: seq<string>, request: Request, result: TokenFetchResult,
                               fetch: SecureStringFetch): (r: UpdateResponse)
    requires forall h :: h in order ==> h in rules
    ensures var a := Adapt(r.request, r.decision, r.error);
      && !a.Trapped?
      && (a.Adapted? <==> r.error.None?)
      && (a.Refused? ==> r.error == Some(a.error))
      && (a.Adapted? ==> a.request == UpdateSpec(bindHeader, tokenHeader, tokenPrefix, rules, order, request, result, fetch).request)
    ensures r.error == UpdateSpec(bindHeader, tokenHeader, tokenPrefix, rules, order, request, result, fetch).error
    ensures r.decision == ShouldRetry <==> r.error == Some(NetworkingError)
  {
    var r := UpdateSpec(bindHeader, tokenHeader, tokenPrefix, rules, order, request, result, fetch);
    if r.decision == ShouldProceed && r.error.Some? then
      r.(decision := if r.error.value == NetworkingError then ShouldRetry else ShouldFail)
    else r
  }

  /** The outcome of one `initialize` call: the new flag and the result. */
  datatype InitStep = InitStep(initialised: bool, outcome: Outcome<ApproovError>)

  /** `initialize(config:)`, as written: `configUsed` is
      `approovConfigStringUsed` and `sdkInitSucceeds` whether the SDK's own
      initialisation accepts `config`. */
  function InitTransition(initialised: bool, configUsed: Option<string>, config: Option<string>,
                          sdkInitSucceeds: bool): (r: InitStep)
    ensures r.outcome.Fail? ==> r.outcome.error == InitializationError && r.initialised == initialised
    ensures r.initialised <==> initialised || (config.Some? && sdkInitSucceeds)
    ensures r.outcome.Pass? <==>
      (initialised && (config.None? || config == configUsed)) || (!initialised && config.Some? && sdkInitSucceeds)
  {
    if initialised then
      if config.Some? && config != configUsed then InitStep(true, Fail(InitializationError))
      else InitStep(true, Pass)
    else if config.None? then InitStep(false, Fail(InitializationError))
    else if sdkInitSucceeds then InitStep(true, Pass)
    else InitStep(false, Fail(InitializationError))
  }

  /** As written, `approovConfigStringUsed` is never assigned, so it stays
      nil, and initialising twice with the same config string fails. */
  lemma RepeatInitialiseWithSameConfigFails(config: string, sdkInitSucceeds: bool)
    requires sdkInitSucceeds
    ensures var first := InitTransition(false, None, Some(config), sdkInitSucceeds);
      && first == InitStep(true, Pass)
      && InitTransition(first.initialised, None, Some(config), sdkInitSucceeds) == InitStep(true, Fail(InitializationError))
  {
  }

  /** Initialisation state with the config string that was used. */
  datatype InitState = InitState(initialised: bool, configUsed: Option<string>)

  /** The evidently intended `initialize`: record the config string on a
      successful first initialisation. */
  function InitTransitionCorrected(s: InitState, config: Option<string>, sdkInitSucceeds: bool)
    : (r: (InitState, Outcome<ApproovError>))
    ensures r.1.Fail? ==> r.1.error == InitializationError && r.0 == s
    ensures r.1.Pass? <==>
      (s.initialised && (config.None? || config == s.configUsed)) || (!s.initialised && config.Some? && sdkInitSucceeds)
    ensures !s.initialised && r.1.Pass? ==> r.0 == InitState(true, config)
    ensures s.initialised ==> r.0 == s
  {
    var step := InitTransition(s.initialised, s.configUsed, config, sdkInitSucceeds);
    if !s.initialised && step.outcome.Pass? then (InitState(true, config), Pass) else (s, step.outcome)
  }

  /** With the correction, `initialize("X")` twice succeeds and
      `initialize("X")` then `initialize("Y")` fails. */
  lemma CorrectedInitialiseIsIdempotent(x: string, y: string, sdkInitSucceeds: bool)
    requires sdkInitSucceeds && x != y
    ensures var (s1, o1) := InitTransitionCorrected(InitState(false, None), Some(x), sdkInitSucceeds);
      && o1.Pass?
      && InitTransitionCorrected(s1, Some(x), sdkInitSucceeds).1.Pass?
      && InitTransitionCorrected(s1, None, sdkInitSucceeds).1.Pass?
      && InitTransitionCorrected(s1, Some(y), sdkInitSucceeds).1 == Fail(InitializationError)
  {
  }

  /** ApproovService's static state. */
  class ApproovService {
    var approovConfigStringUsed: Option<string>
    var approovSDKInitialised: bool
    var substitutionHeaders: Rules
    var bindHeader: string
    var approovTokenHeader: string
    var approovTokenPrefix: string

    /** The state at process start. */
    constructor ()
      ensures approovConfigStringUsed == None && !approovSDKInitialised
      ensures substitutionHeaders == map[] && bindHeader == ""
      ensures approovTokenHeader == DefaultTokenHeader && approovTokenPrefix == ""
    {
      approovConfigStringUsed := None;
      approovSDKInitialised := false;
      substitutionHeaders := map[];
      bindHeader := "";
      approovTokenHeader := DefaultTokenHeader;
      approovTokenPrefix := "";
    }

    /** `initialize(config:)`; `sdkInitSucceeds` is whether the SDK's
        `initialize` accepts the config. Nothing assigns
        `approovConfigStringUsed`. */
    method Initialize(config: Option<string>, sdkInitSucceeds: bool) returns (r: Outcome<ApproovError>)
      modifies this`approovSDKInitialised
      ensures InitStep(approovSDKInitialised, r)
           == InitTransition(old(approovSDKInitialised), approovConfigStringUsed, config, sdkInitSucceeds)
    {
      if approovSDKInitialised {
        if config.Some? && config != approovConfigStringUsed {
          return Fail(InitializationError);
        }
        return Pass;
      }
      if config.None? {
        return Fail(InitializationError);
      }
      if !sdkInitSucceeds {
        return Fail(InitializationError);
      }
      approovSDKInitialised := true;
      r := Pass;
    }

    /** The `bindHeader` setter. */
    method SetBindHeader(header: string)
      modifies this`bindHeader
      ensures bindHeader == header
    {
      bindHeader := header;
    }

    /** The `approovTokenHeaderAndPrefix` setter. */
    method SetApproovTokenHeaderAndPrefix(header: string, prefix: string)
      modifies this`approovTokenHeader, this`approovTokenPrefix
      ensures approovTokenHeader == header && approovTokenPrefix == prefix
    {
      approovTokenHeader, approovTokenPrefix := header, prefix;
    }

    /** `addSubstitutionHeader(header:prefix:)`: a nil prefix is stored as
        the empty prefix. */
    method AddSubstitutionHeader(header: string, prefix: Option<string>)
      modifies this`substitutionHeaders
      ensures substitutionHeaders == old(substitutionHeaders)[header := prefix.GetOr("")]
    {
      if prefix.None? {
        substitutionHeaders := substitutionHeaders[header := ""];
      } else {
        substitutionHeaders := substitutionHeaders[header := prefix.value];
      }
    }

    /** `removeSubstitutionHeader(header:)`. */
    method RemoveSubstitutionHeader(header: string)
      modifies this`substitutionHeaders
      ensures substitutionHeaders == old(substitutionHeaders) - {header}
    {
      if header in substitutionHeaders {
        substitutionHeaders := substitutionHeaders - {header};
      }
    }

    /** `updateRequestWithApproov(request:)`: `tokenResult` is what
        `fetchTokenAndWait` returns for the request's URL, `order` the
        dictionary's iteration order, `fetch` the SDK's secure-string lookup. */
    method UpdateRequestWithApproov(request: Request, tokenResult: TokenFetchResult, order: seq<string>,
                                    fetch: SecureStringFetch) returns (returnData: UpdateResponse)
      requires IsEnumerationOf(order, substitutionHeaders)
      ensures returnData == UpdateSpec(bindHeader, approovTokenHeader, approovTokenPrefix, substitutionHeaders,
                                       order, request, tokenResult, fetch)
    {
      returnData := UpdateResponse(request, ShouldFail, None, None);
      if bindHeader != "" {
        if bindHeader in request.headers {
          returnData := returnData.(dataHash := Some(request.headers[bindHeader]));
        }
      }
      var status := tokenResult.status;
      if status == Success {
        returnData := returnData.(decision := ShouldProceed);
        returnData := returnData.(request := request.(headers :=
          request.headers[approovTokenHeader := approovTokenPrefix + tokenResult.token]));
      } else if status == NoNetwork || status == PoorNetwork || status == MitmDetected {
        returnData := returnData.(decision := ShouldRetry, error := Some(NetworkingError));
        return;
      } else if status == UnprotectedURL || status == UnknownURL || status == NoApproovService {
        returnData := returnData.(decision := ShouldProceed);
      } else {
        returnData := returnData.(error := Some(PermanentError), decision := ShouldFail);
        return;
      }
      var isIllegalSubstitution := status == UnknownURL;
      var requestHeaders := returnData.request.headers;
      var pass := SubstituteHeaders(requestHeaders, isIllegalSubstitution, order, fetch);
      if pass.Aborted? {
        returnData := returnData.(error := Some(pass.error));
        return;
      }
      returnData := returnData.(request := returnData.request.(headers := pass.headers));
    }

    /** The substitution loop of `updateRequestWithApproov`: eligibility is
        read from `requestHeaders`, replacements go into a copy of it, and the
        first failing rule returns its error. */
    method SubstituteHeaders(requestHeaders: map<string, string>, isIllegalSubstitution: bool,
                             order: seq<string>, fetch: SecureStringFetch) returns (pass: PassOutcome)
      requires forall h :: h in order ==> h in substitutionHeaders
      ensures pass == SubstitutionPass(order, substitutionHeaders, requestHeaders, requestHeaders, fetch,
                                       isIllegalSubstitution)
    {
      var replacement := requestHeaders;
      for i := 0 to |order|
        invariant SubstitutionPass(order, substitutionHeaders, requestHeaders, requestHeaders, fetch, isIllegalSubstitution)
               == SubstitutionPass(order[i..], substitutionHeaders, requestHeaders, replacement, fetch, isIllegalSubstitution)
      {
        assert order[i..][1..] == order[i + 1..];
        var key := order[i];
        var prefix := substitutionHeaders[key];
        if key in requestHeaders {
          var value := requestHeaders[key];
          if prefix <= value && |value| > |prefix| {
            var approovResults := fetch(value[|prefix|..], None);
            if approovResults.status == Success {
              if isIllegalSubstitution {
                return Aborted(ConfigurationError);
              }
              if approovResults.secureString.Some? {
                replacement := replacement[key := prefix + approovResults.secureString.value];
              } else {
                return Aborted(PermanentError);
              }
            } else if approovResults.status == Rejected {
              return Aborted(RejectionError(approovResults.arc, approovResults.rejectionReasons));
            } else if approovResults.status == NoNetwork || approovResults.status == PoorNetwork
                      || approovResults.status == MitmDetected {
              return Aborted(NetworkingError);
            } else if approovResults.status != UnknownKey {
              return Aborted(PermanentError);
            }
          }
        }
      }
      pass := Completed(replacement);
    }
  }
}
