/** Types shared by both copies of the Approov interceptor: the optional and
    failure-carrying wrappers, the attestation status reported by the SDK, the
    SDK's fetch result record, the three-way fetch decision, the outgoing
    request, and the `adapt` hand-off to the HTTP session. */
module Common {

  datatype Option<+T> = None | Some(value: T) {
    function GetOr(default: T): T {
      match this
      case Some(v) => v
      case None => default
    }
  }

  datatype Result<+R, +E> = Ok(value: R) | Err(error: E)

  datatype Outcome<+E> = Pass | Fail(error: E)

  /** The status values of the SDK's ApproovTokenFetchStatus that the
      interceptor names; `Other` stands for every status reached only through
      a `default` branch. */
  datatype Status =
    | Success
    | NoNetwork
    | PoorNetwork
    | MitmDetected
    | UnprotectedURL
    | UnknownURL
    | NoApproovService
    | Rejected
    | UnknownKey
    | Disabled
    | BadKey
    | BadPayload
    | Other

  /** The SDK's ApproovTokenFetchResult, as far as the interceptor reads it. */
  datatype TokenFetchResult = TokenFetchResult(
    status: Status,
    token: string,
    isConfigChanged: bool,
    secureString: Option<string>,
    arc: string,
    rejectionReasons: string)

  /** ApproovTokenNetworkFetchDecision. */
  datatype Decision = ShouldProceed | ShouldRetry | ShouldFail

  /** An outgoing URL request. Header names are exact map keys. */
  datatype Request = Request(url: string, headers: map<string, string>)

  /** The statuses both copies treat as a transient network condition. */
  predicate IsNetworkStatus(s: Status) {
    s == NoNetwork || s == PoorNetwork || s == MitmDetected
  }

  /** The statuses under which a request goes ahead without a token. */
  predicate IsPassThroughStatus(s: Status) {
    s == UnprotectedURL || s == UnknownURL || s == NoApproovService
  }

  /** The `switch` over the token fetch status shared by both copies. */
  function TokenDecision(s: Status): (d: Decision)
    ensures d == ShouldProceed <==> s == Success || IsPassThroughStatus(s)
    ensures d == ShouldRetry <==> IsNetworkStatus(s)
    ensures d == ShouldFail <==> !(s == Success || IsPassThroughStatus(s) || IsNetworkStatus(s))
  {
    match s
    case Success => ShouldProceed
    case NoNetwork => ShouldRetry
    case PoorNetwork => ShouldRetry
    case MitmDetected => ShouldRetry
    case UnprotectedURL => ShouldProceed
    case UnknownURL => ShouldProceed
    case NoApproovService => ShouldProceed
    case _ => ShouldFail
  }

  /** What the session's completion handler receives from `adapt`;
      `Trapped` is the crash of force-unwrapping a nil error. */
  datatype AdaptOutcome<+E> = Adapted(request: Request) | Refused(error: E) | Trapped

  /** `adapt`: pass the request on when the decision is ShouldProceed,
      otherwise fail with the (force-unwrapped) error. */
  function Adapt<E>(request: Request, decision: Decision, error: Option<E>): (r: AdaptOutcome<E>)
    ensures r.Adapted? <==> decision == ShouldProceed
    ensures r.Adapted? ==> r.request == request
    ensures r.Trapped? <==> decision != ShouldProceed && error.None?
    ensures r.Refused? ==> error == Some(r.error)
  {
    if decision == ShouldProceed then Adapted(request)
    else if error.Some? then Refused(error.value)
    else Trapped
  }
}
