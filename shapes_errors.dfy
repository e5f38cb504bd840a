/** The shapes-app service's error taxonomy and its three public status
    classifiers: `fetchSecureString`, `fetchCustomJWT` and `precheck`. Each
    makes one SDK call, supplied here as a function, and turns the status it
    reports into a value or an error. */
module ShapesErrors {
  import opened Common

  /** ApproovError of the shapes-app copy, without the message texts. */
  datatype ApproovError =
    | InitializationError
    | ConfigurationError
    | PinningError
    | NetworkingError
    | PermanentError
    | RejectionError(arc: string, rejectionReasons: string)

  /** `fetchSecureStringAndWait(key, newDef)` of the SDK. */
  type SecureStringFetch = (string, Option<string>) -> TokenFetchResult

  /** `fetchCustomJWTAndWait(payload)` of the SDK. */
  type CustomJwtFetch = string -> TokenFetchResult

  /** The key `precheck` looks up, which is expected not to exist. */
  const PrecheckKey: string := "precheck-dummy-key"

  /** `fetchSecureString(key:newDef:)`: the secure string (possibly nil) when
      the lookup succeeds or the key is unknown; otherwise the error its
      status calls for. */
  function FetchSecureString(key: string, newDef: Option<string>, fetch: SecureStringFetch)
    : (r: Result<Option<string>, ApproovError>)
    ensures var res := fetch(key, newDef);
      && (r.Ok? <==> res.status == Success || res.status == UnknownKey)
      && (r.Ok? ==> r.value == res.secureString)
      && (r == Err(ConfigurationError) <==> res.status == Disabled)
      && (r == Err(NetworkingError) <==> IsNetworkStatus(res.status))
      && (res.status == Rejected <==> r == Err(RejectionError(res.arc, res.rejectionReasons)))
      && (r == Err(PermanentError) <==>
            !(res.status in {Success, UnknownKey, Disabled, Rejected} || IsNetworkStatus(res.status)))
  {
    var res := fetch(key, newDef);
    if res.status == Disabled then Err(ConfigurationError)
    else if res.status == BadKey then Err(PermanentError)
    else if res.status == Rejected then Err(RejectionError(res.arc, res.rejectionReasons))
    else if IsNetworkStatus(res.status) then Err(NetworkingError)
    else if res.status != Success && res.status != UnknownKey then Err(PermanentError)
    else Ok(res.secureString)
  }

  /** `fetchCustomJWT(payload:)`: the token on success; a malformed payload
      is a permanent error and a disabled feature a configuration error. */
  function FetchCustomJwt(payload: string, fetch: CustomJwtFetch): (r: Result<string, ApproovError>)
    ensures var res := fetch(payload);
      && (r.Ok? <==> res.status == Success)
      && (r.Ok? ==> r.value == res.token)
      && (r == Err(ConfigurationError) <==> res.status == Disabled)
      && (r == Err(NetworkingError) <==> IsNetworkStatus(res.status))
      && (res.status == Rejected <==> r == Err(RejectionError(res.arc, res.rejectionReasons)))
      && (r == Err(PermanentError) <==>
            !(res.status in {Success, Disabled, Rejected} || IsNetworkStatus(res.status)))
  {
    var res := fetch(payload);
    if res.status == BadPayload then Err(PermanentError)
    else if res.status == Disabled then Err(ConfigurationError)
    else if res.status == Rejected then Err(RejectionError(res.arc, res.rejectionReasons))
    else if IsNetworkStatus(res.status) then Err(NetworkingError)
    else if res.status != Success then Err(PermanentError)
    else Ok(res.token)
  }

  /** `precheck()`: look up the dummy key; success or an unknown key means
      the app would pass attestation. */
  function Precheck(fetch: SecureStringFetch): (r: Outcome<ApproovError>)
    ensures var res := fetch(PrecheckKey, None);
      && (r.Pass? <==> res.status == Success || res.status == UnknownKey)
      && (r == Fail(NetworkingError) <==> IsNetworkStatus(res.status))
      && (res.status == Rejected <==> r == Fail(RejectionError(res.arc, res.rejectionReasons)))
      && (r == Fail(PermanentError) <==>
            !(res.status in {Success, UnknownKey, Rejected} || IsNetworkStatus(res.status)))
  {
    var res := fetch(PrecheckKey, None);
    if res.status == Rejected then Fail(RejectionError(res.arc, res.rejectionReasons))
    else if IsNetworkStatus(res.status) then Fail(NetworkingError)
    else if res.status != Success && res.status != UnknownKey then Fail(PermanentError)
    else Pass
  }

  /** `precheck` is a lookup of its dummy key with the value thrown away: it
      passes exactly when that lookup returns, and fails with the same error
      except that a disabled feature is permanent for `precheck` and a
      configuration error for the lookup. */
  lemma PrecheckIsDummyLookup(fetch: SecureStringFetch)
    ensures Precheck(fetch).Pass? <==> FetchSecureString(PrecheckKey, None, fetch).Ok?
    ensures fetch(PrecheckKey, None).status != Disabled && Precheck(fetch).Fail? ==>
      FetchSecureString(PrecheckKey, None, fetch) == Err(Precheck(fetch).error)
    ensures fetch(PrecheckKey, None).status == Disabled ==>
      Precheck(fetch) == Fail(PermanentError) && FetchSecureString(PrecheckKey, None, fetch) == Err(ConfigurationError)
  {
  }
}
