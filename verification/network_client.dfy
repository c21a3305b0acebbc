/** `NetworkClient`: how the outcome of one HTTP exchange becomes response bytes
    or a `NetworkError`, and how decoding is layered on top. The session and the
    JSON decoder are not modelled; their outcomes are inputs. */
module NetworkClient {
  import opened Wrappers
  import opened Platform
  import opened Errors

  type Data = seq<bv8>

  /** `NetworkMethod` */
  datatype Method = Get

  /** `NetworkRequest` */
  datatype NetworkRequest = NetworkRequest(url: Url, httpMethod: Method, headers: Option<map<string, string>>, body: Option<Data>)

  /** The response `URLSession` hands back: an `HTTPURLResponse` with its status
      code, or a response of another kind. */
  datatype Response = HttpResponse(statusCode: Int64) | NonHttpResponse

  /** What `session.data(for:)` does: return bytes and a response, or throw. */
  datatype SessionOutcome = Returned(data: Data, response: Response) | Threw(error: AnyError)

  /** The successful class of status codes (2xx, section 15.3 of RFC 9110). */
  predicate IsSuccessful(statusCode: int) {
    200 <= statusCode <= 299
  }

  /** The `do` block of `requestData`: what it returns or throws, before the catch clauses. */
  function ExchangeBody(session: SessionOutcome): (r: Result<Data, AnyError>)
    ensures r.Success? <==> session.Returned? && session.response.HttpResponse? && IsSuccessful(session.response.statusCode)
    ensures r.Success? ==> r.value == session.data
  {
    match session
    case Threw(e) => Failure(e)
    case Returned(data, NonHttpResponse) => Failure(Network(InvalidResponse))
    case Returned(data, HttpResponse(code)) =>
      if IsSuccessful(code) then Success(data)
      else Failure(Network(HttpError(code, Some(data))))
  }

  /** The three catch clauses of `requestData`, applied to whatever the `do` block threw. */
  function Rewrap(e: AnyError): (r: NetworkError)
    ensures r.Cancelled? <==> e.Cancellation?
    ensures r.UrlError? <==> e.URLFailure?
    ensures e.URLFailure? ==> r == UrlError(e.urlError)
    ensures !e.Cancellation? && !e.URLFailure? ==> r == Unknown(e)
  {
    match e
    case URLFailure(u) => UrlError(u)
    case Cancellation(_) => Cancelled
    case _ => Unknown(e)
  }

  /** `requestData`: a cancelled task fails without the session; otherwise the
      exchange's bytes, or its failure passed through the catch clauses. */
  function RequestData(isCancelled: bool, session: SessionOutcome): (r: Result<Data, NetworkError>)
    ensures isCancelled ==> r == Failure(Cancelled)
    ensures r.Success? <==> !isCancelled && session.Returned? && session.response.HttpResponse? && IsSuccessful(session.response.statusCode)
    ensures r.Success? ==> r.value == session.data
    // the catch-all rewraps what the do block itself threw
    ensures !isCancelled && session.Returned? && session.response.HttpResponse? && !IsSuccessful(session.response.statusCode)
      ==> r == Failure(Unknown(Network(HttpError(session.response.statusCode, Some(session.data)))))
    ensures !isCancelled && session.Returned? && session.response.NonHttpResponse?
      ==> r == Failure(Unknown(Network(InvalidResponse)))
    ensures !isCancelled && session.Threw? && session.error.URLFailure? ==> r == Failure(UrlError(session.error.urlError))
    ensures !isCancelled && session.Threw? && session.error.Cancellation? ==> r == Failure(Cancelled)
  {
    if isCancelled then Failure(Cancelled)
    else
      match ExchangeBody(session)
      case Success(data) => Success(data)
      case Failure(e) => Failure(Rewrap(e))
  }

  /** `requestData` never fails with a bare `httpError` or `invalidResponse`, nor
      with a decoding error: those are thrown inside the `do` block and rewrapped. */
  lemma RequestDataNeverBareHttpError(isCancelled: bool, session: SessionOutcome)
    ensures RequestData(isCancelled, session).Failure? ==>
      var e := RequestData(isCancelled, session).error;
      !e.HttpError? && !e.InvalidResponse? && !e.DecodingError?
  {
  }

  /** When the task is already cancelled the session is never consulted: the
      outcome is the same whatever the session would have done. */
  lemma CancelledIgnoresSession(s1: SessionOutcome, s2: SessionOutcome)
    ensures RequestData(true, s1) == RequestData(true, s2) == Failure(Cancelled)
  {
  }

  /** `request(_:as:)`: the bytes of `requestData`, decoded by `decode`; a decoding
      failure becomes `decodingError`. */
  function Request<T>(isCancelled: bool, session: SessionOutcome, decode: Data -> Result<T, AnyError>): (r: Result<T, NetworkError>)
    // decoding is attempted only on bytes requestData returned
    ensures RequestData(isCancelled, session).Failure? ==> r == Failure(RequestData(isCancelled, session).error)
    ensures RequestData(isCancelled, session).Success? ==>
      var decoded := decode(RequestData(isCancelled, session).value);
      r == if decoded.Success? then Success(decoded.value) else Failure(DecodingError(decoded.error))
    ensures r.Failure? && r.error.DecodingError? ==> RequestData(isCancelled, session).Success?
  {
    match RequestData(isCancelled, session)
    case Failure(e) => Failure(e)
    case Success(data) =>
      match decode(data)
      case Success(value) => Success(value)
      case Failure(e) => Failure(DecodingError(e))
  }

  /** A failed exchange fails the request the same way, whatever the decoder does. */
  lemma FailedExchangeIgnoresDecoder<T>(isCancelled: bool, session: SessionOutcome,
                                        d1: Data -> Result<T, AnyError>, d2: Data -> Result<T, AnyError>)
    requires RequestData(isCancelled, session).Failure?
    ensures Request(isCancelled, session, d1) == Request(isCancelled, session, d2)
  {
  }
}
