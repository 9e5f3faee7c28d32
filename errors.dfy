/**
 * The client's error type (src/errors.rs): its variants, the `From`
 * conversions from the errors of the libraries it calls, and the
 * `description` text of each variant.
 */
module Errors {
  import opened Wrappers
  import opened HttpStatus

  /** An error value of another library; only its own description is modelled. */
  datatype ForeignError = ForeignError(description: string)

  /** The error body the Mastodon API returns. */
  datatype ApiError = ApiError(error: Option<string>, errorDescription: Option<string>)

  datatype Error =
    | Api(api: ApiError)
    | Serde(serde: ForeignError)
    | UrlEncoded(urlEncoded: ForeignError)
    | Http(http: ForeignError)
    | Io(io: ForeignError)
    | Url(url: ForeignError)
    | ClientIdRequired
    | ClientSecretRequired
    | AccessTokenRequired
    | Client(clientStatus: StatusCode)
    | Server(serverStatus: StatusCode)
    | DataMissing
    | MissingField(field: string)
    | HeaderStrError(headerStr: ForeignError)
    | HeaderParseError(headerParse: ForeignError)
    | Other(message: string)

  /**
   * The `description` of an error. The canonical reason phrases of status
   * codes are a table of the `http` crate, passed in as `canonicalReason`.
   */
  function Description(e: Error, canonicalReason: StatusCode -> Option<string>): (d: string)
    ensures e.Api? && e.api.errorDescription.Some? ==> d == e.api.errorDescription.value
    ensures e.Api? && e.api.errorDescription.None? && e.api.error.Some? ==> d == e.api.error.value
    ensures e.Api? && e.api.errorDescription.None? && e.api.error.None? ==> d == "Unknown API Error"
    ensures e.Client? && canonicalReason(e.clientStatus).None? ==> d == "Unknown Status code"
    ensures e.Server? && canonicalReason(e.serverStatus).None? ==> d == "Unknown Status code"
    ensures e.Client? && canonicalReason(e.clientStatus).Some? ==> d == canonicalReason(e.clientStatus).value
    ensures e.Server? && canonicalReason(e.serverStatus).Some? ==> d == canonicalReason(e.serverStatus).value
    ensures SelfDescribing(e) ==> d == VariantName(e)
  {
    match e
    case Api(a) =>
      if a.errorDescription.Some? then a.errorDescription.value
      else if a.error.Some? then a.error.value
      else "Unknown API Error"
    case Serde(f) => f.description
    case UrlEncoded(f) => f.description
    case Http(f) => f.description
    case Io(f) => f.description
    case Url(f) => f.description
    case Client(s) => StatusReason(s, canonicalReason)
    case Server(s) => StatusReason(s, canonicalReason)
    case ClientIdRequired => "ClientIdRequired"
    case ClientSecretRequired => "ClientSecretRequired"
    case AccessTokenRequired => "AccessTokenRequired"
    case DataMissing => "DataMissing"
    case MissingField(_) => "MissingField"
    case HeaderStrError(f) => f.description
    case HeaderParseError(f) => f.description
    case Other(m) => m
  }

  function StatusReason(s: StatusCode, canonicalReason: StatusCode -> Option<string>): string
  {
    match canonicalReason(s)
    case Some(r) => r
    case None => "Unknown Status code"
  }

  /** The variants whose description is their own name. */
  predicate SelfDescribing(e: Error)
  {
    e.ClientIdRequired? || e.ClientSecretRequired? || e.AccessTokenRequired? || e.DataMissing? || e.MissingField?
  }

  /** The name of the variant, as written in the source. */
  function VariantName(e: Error): string
  {
    match e
    case Api(_) => "Api"
    case Serde(_) => "Serde"
    case UrlEncoded(_) => "UrlEncoded"
    case Http(_) => "Http"
    case Io(_) => "Io"
    case Url(_) => "Url"
    case ClientIdRequired => "ClientIdRequired"
    case ClientSecretRequired => "ClientSecretRequired"
    case AccessTokenRequired => "AccessTokenRequired"
    case Client(_) => "Client"
    case Server(_) => "Server"
    case DataMissing => "DataMissing"
    case MissingField(_) => "MissingField"
    case HeaderStrError(_) => "HeaderStrError"
    case HeaderParseError(_) => "HeaderParseError"
    case Other(_) => "Other"
  }

  /** A client error and a server error with the same status read the same. */
  lemma ClientServerSameDescription(s: StatusCode, canonicalReason: StatusCode -> Option<string>)
    ensures Description(Client(s), canonicalReason) == Description(Server(s), canonicalReason)
  {
  }

  /** The errors of other libraries that `?` converts into an `Error`. */
  datatype Source =
    | FromHttp(httpError: ForeignError)
    | FromIo(ioError: ForeignError)
    | FromSerde(serdeError: ForeignError)
    | FromUrlEncoded(urlEncodedError: ForeignError)
    | FromUrl(urlError: ForeignError)
    | FromApi(apiError: ApiError)
    | FromHeaderStr(headerStrError: ForeignError)
    | FromHeaderParse(headerParseError: ForeignError)

  /** The `From` conversions: each source error is wrapped in its own variant. */
  function From(src: Source): (e: Error)
    ensures Unwrap(e) == Some(src)
  {
    match src
    case FromHttp(f) => Http(f)
    case FromIo(f) => Io(f)
    case FromSerde(f) => Serde(f)
    case FromUrlEncoded(f) => UrlEncoded(f)
    case FromUrl(f) => Url(f)
    case FromApi(a) => Api(a)
    case FromHeaderStr(f) => HeaderStrError(f)
    case FromHeaderParse(f) => HeaderParseError(f)
  }

  /** The wrapped source error of a variant that wraps one. */
  function Unwrap(e: Error): Option<Source>
  {
    match e
    case Http(f) => Some(FromHttp(f))
    case Io(f) => Some(FromIo(f))
    case Serde(f) => Some(FromSerde(f))
    case UrlEncoded(f) => Some(FromUrlEncoded(f))
    case Url(f) => Some(FromUrl(f))
    case Api(a) => Some(FromApi(a))
    case HeaderStrError(f) => Some(FromHeaderStr(f))
    case HeaderParseError(f) => Some(FromHeaderParse(f))
    case _ => None
  }

  /** Converted errors keep their description. */
  lemma FromKeepsDescription(f: ForeignError, canonicalReason: StatusCode -> Option<string>)
    ensures Description(From(FromHttp(f)), canonicalReason) == f.description
    ensures Description(From(FromIo(f)), canonicalReason) == f.description
    ensures Description(From(FromSerde(f)), canonicalReason) == f.description
    ensures Description(From(FromUrl(f)), canonicalReason) == f.description
    ensures Description(From(FromHeaderParse(f)), canonicalReason) == f.description
  {
  }
}
