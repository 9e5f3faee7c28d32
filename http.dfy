/**
 * The HTTP values the client handles: URLs, requests, the `Link` header
 * and responses. Only what the client reads of them is modelled.
 */
module Http {
  import opened Wrappers
  import opened HttpStatus
  import opened Errors

  /** A parsed URL (`url::Url`): everything up to the query, and the query. */
  datatype Url = Url(location: string, query: Option<string>)
  {
    /** The URL as text: the query follows a single `?`. */
    function Href(): string
    {
      location + (if query.Some? then "?" + query.value else "")
    }
  }

  datatype Method = Get | Post | Put | Patch | Delete

  /** A request of the asynchronous client (`http_types::Request`). */
  datatype Request = Request(verb: Method, url: Url)

  /** The relation types of RFC 8288 that the client tells apart. */
  datatype Rel = Next | Prev | OtherRel(name: string)

  /** One link-value of a `Link` header: its target and its `rel` parameter, if any. */
  datatype LinkValue = LinkValue(link: string, rel: Option<seq<Rel>>)

  /** The outcome of tokenising the text of a `Link` header. */
  datatype LinkField = Tokens(values: seq<LinkValue>) | Unparsable(parseError: ForeignError)

  /**
   * The `Link` header of a blocking response: absent, not visible ASCII
   * (so it has no text), or text that was tokenised.
   */
  datatype LinkHeader = Absent | NotText(textError: ForeignError) | Text(field: LinkField)

  /**
   * A response body seen through the JSON decodings the clients try: into
   * the expected type, and into the API's error shape. The two clients try
   * the error shape on different bytes. The asynchronous client reads the
   * whole body first and retries on all of it (`asApiError`). The blocking
   * client decodes from a stream and retries only on the bytes the failed
   * decode had consumed (`consumedAsApiError`). That prefix can stop short
   * of the whole body: a decode that expects an array stops at the `{` of an
   * error object.
   */
  datatype Body<T> = Body(asTarget: Result<T, ForeignError>, asApiError: Option<ApiError>, consumedAsApiError: Option<ApiError>)

  /** A response of the blocking client (`reqwest::blocking::Response`). */
  datatype Response<T> = Response(status: StatusCode, link: LinkHeader, body: Body<T>)

  /**
   * A response of the asynchronous client (`http_types::Response`), whose
   * header values are always text. Its body is read only when asked for, and
   * reading it can fail; `body` is the body read, or the client's error for
   * the failed read.
   */
  datatype AsyncResponse<T> = AsyncResponse(status: StatusCode, link: Option<LinkField>, body: Result<Body<T>, Error>)
}
