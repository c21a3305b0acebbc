/** The error values the app throws and catches, and the texts
    (`errorDescription`, `localizedDescription`) it shows for them. */
module Errors {
  import opened Wrappers
  import opened Platform
  import opened Text

  /** Foundation's `URLError`: its code and the text the platform describes it with. */
  datatype URLError = URLError(code: Int64, description: string)

  /** `LocationError` of the location manager. */
  datatype LocationError = AuthorizationDenied | UnableToDetermineLocation | RequestAlreadyInProgress | Timeout

  /** `NetworkError` of the network client. */
  datatype NetworkError =
    | InvalidResponse
    | HttpError(statusCode: Int64, data: Option<seq<bv8>>)
    | DecodingError(cause: AnyError)
    | UrlError(urlError: URLError)
    | Cancelled
    | Unknown(cause: AnyError)

  /** A Swift `Error` value, as it travels through `throws` and `catch`. */
  datatype AnyError =
    | Network(networkError: NetworkError)
    | Location(locationError: LocationError)
    | URLFailure(urlError: URLError)
    /** Swift's `CancellationError`, with the text the platform describes it with. */
    | Cancellation(description: string)
    /** Any other error (a decoder's, the location service's), with its localized description. */
    | Foreign(description: string)

  /** `LocationError.errorDescription`: a sentence, ending with a full stop. */
  function LocationErrorDescription(e: LocationError): (r: string)
    ensures |r| > 2 && r[|r| - 1] == '.'
  {
    match e
    case AuthorizationDenied => "Location permission denied."
    case UnableToDetermineLocation => "Unable to determine location."
    case RequestAlreadyInProgress => "A location request is already in progress."
    case Timeout => "Timed out waiting for location."
  }

  const HttpErrorPrefix := "HTTP error with status code "

  /** `NetworkError.errorDescription`: its first two characters tell the case. */
  function NetworkErrorDescription(e: NetworkError): (r: string)
    ensures KindTag(e) <= r
    decreases e
  {
    match e
    case InvalidResponse => "Invalid response from server."
    case HttpError(code, _) => HttpErrorPrefix + DecimalString(code) + "."
    case DecodingError(cause) => "Decoding error: " + LocalizedDescription(cause)
    case UrlError(u) => "URL error: " + u.description
    case Cancelled => "Request was cancelled."
    case Unknown(cause) => "Unknown error: " + LocalizedDescription(cause)
  }

  /** `error.localizedDescription`: an error of the app gives its `errorDescription`,
      a platform or foreign error the text it carries. */
  function LocalizedDescription(e: AnyError): (r: string)
    ensures e.Network? || e.Location? ==> r != ""
    decreases e
  {
    match e
    case Network(n) => NetworkErrorDescription(n)
    case Location(l) => LocationErrorDescription(l)
    case URLFailure(u) => u.description
    case Cancellation(text) => text
    case Foreign(text) => text
  }

  /** The status code an HTTP error text names, if `text` is such a text. */
  function StatusCodeInDescription(text: string): Option<int> {
    if HttpErrorPrefix <= text && |text| > |HttpErrorPrefix| && text[|text| - 1] == '.' then
      ParseDecimal(text[|HttpErrorPrefix|..|text| - 1])
    else None
  }

  /** The text shown for an HTTP error names its status code. */
  lemma HttpErrorDescriptionNamesStatus(code: Int64, data: Option<seq<bv8>>)
    ensures StatusCodeInDescription(NetworkErrorDescription(HttpError(code, data))) == Some(code)
  {
    var digits := DecimalString(code);
    var text := HttpErrorPrefix + digits + ".";
    assert text[|HttpErrorPrefix|..|text| - 1] == digits;
    assert HttpErrorPrefix <= text;
    DecimalRoundTrip(code);
  }

  /** The texts of different kinds of network error differ, and two HTTP error
      texts are equal only for equal status codes: the text tells the failure apart. */
  lemma NetworkErrorDescriptionTellsKind(e1: NetworkError, e2: NetworkError)
    requires NetworkErrorDescription(e1) == NetworkErrorDescription(e2)
    ensures e1.InvalidResponse? == e2.InvalidResponse?
    ensures e1.HttpError? == e2.HttpError?
    ensures e1.DecodingError? == e2.DecodingError?
    ensures e1.UrlError? == e2.UrlError?
    ensures e1.Cancelled? == e2.Cancelled?
    ensures e1.Unknown? == e2.Unknown?
    ensures e1.HttpError? && e2.HttpError? ==> e1.statusCode == e2.statusCode
  {
    assert KindTag(e1) == NetworkErrorDescription(e1)[..2] == KindTag(e2);
    if e1.HttpError? && e2.HttpError? {
      HttpErrorDescriptionNamesStatus(e1.statusCode, e1.data);
      HttpErrorDescriptionNamesStatus(e2.statusCode, e2.data);
    }
  }

  /** No other network error text names a status code. */
  lemma OnlyHttpErrorNamesStatus(e: NetworkError)
    requires !e.HttpError?
    ensures StatusCodeInDescription(NetworkErrorDescription(e)) == None
  {
    var t := NetworkErrorDescription(e);
    assert t[0] == KindTag(e)[0] != HttpErrorPrefix[0];
    assert !(HttpErrorPrefix <= t);
  }

  /** A non-2xx status reaches the screen wrapped in `unknown`: after the
      "Unknown error: " prefix the text shown is the HTTP error's, which names the status code. */
  lemma WrappedHttpErrorNamesStatus(code: Int64, data: Option<seq<bv8>>)
    ensures var shown := LocalizedDescription(Network(Unknown(Network(HttpError(code, data)))));
      && shown == "Unknown error: " + NetworkErrorDescription(HttpError(code, data))
      && StatusCodeInDescription(shown[|"Unknown error: "|..]) == Some(code)
  {
    var inner := NetworkErrorDescription(HttpError(code, data));
    var shown := LocalizedDescription(Network(Unknown(Network(HttpError(code, data)))));
    var cause := Network(HttpError(code, data));
    assert LocalizedDescription(cause) == inner;
    assert NetworkErrorDescription(Unknown(cause)) == "Unknown error: " + inner;
    assert shown == "Unknown error: " + inner;
    assert shown[|"Unknown error: "|..] == inner;
    HttpErrorDescriptionNamesStatus(code, data);
  }

  /** The first two characters of each case's text. */
  function KindTag(e: NetworkError): string {
    match e
    case InvalidResponse => "In"
    case HttpError(_, _) => "HT"
    case DecodingError(_) => "De"
    case UrlError(_) => "UR"
    case Cancelled => "Re"
    case Unknown(_) => "Un"
  }

  /** The four location error texts are pairwise different. */
  lemma LocationErrorDescriptionInjective(e1: LocationError, e2: LocationError)
    requires LocationErrorDescription(e1) == LocationErrorDescription(e2)
    ensures e1 == e2
  {
    assert LocationErrorDescription(e1)[..2] == LocationErrorDescription(e2)[..2];
  }
}
