/**
 * Turning a response into a value or an error: `deserialise` and the
 * status checks of the blocking client (src/lib.rs), and `deserialize` of
 * the asynchronous client (src/async/mod.rs).
 */
module Decoding {
  import opened Wrappers
  import opened HttpStatus
  import opened Errors
  import opened Http

  /**
   * Decodes into the expected type; when that fails, a fallback that reads
   * as the API's error shape becomes `Api`, and otherwise the original
   * decode error is returned.
   */
  function DecodeBody<T>(target: Result<T, ForeignError>, fallback: Option<ApiError>): (r: Result<T, Error>)
    ensures r.Success? <==> target.Success?
    ensures r.Success? ==> r.value == target.value
    ensures r.Failure? && fallback.Some? ==> r.error == Api(fallback.value)
    ensures r.Failure? && fallback.None? ==> r.error == Serde(target.error)
  {
    match target
    case Success(t) => Success(t)
    case Failure(e) =>
      match fallback
      case Some(api) => Failure(Api(api))
      case None => Failure(From(FromSerde(e)))
  }

  /**
   * `deserialise` of the blocking client: the status is not looked at, and
   * the error shape is tried on the bytes the failed decode consumed.
   */
  function Deserialise<T>(resp: Response<T>): (r: Result<T, Error>)
    ensures r.Success? <==> resp.body.asTarget.Success?
    ensures r.Success? ==> r.value == resp.body.asTarget.value
    ensures r.Failure? && resp.body.consumedAsApiError.Some? ==> r.error == Api(resp.body.consumedAsApiError.value)
    ensures r.Failure? && resp.body.consumedAsApiError.None? ==> r.error == Serde(resp.body.asTarget.error)
  {
    DecodeBody(resp.body.asTarget, resp.body.consumedAsApiError)
  }

  /**
   * The status check of `add_filter`, `update_filter` and
   * `update_credentials`: 4xx and 5xx become `Client` and `Server` before
   * any decoding; every other status is decoded.
   */
  function CheckedDeserialise<T>(resp: Response<T>): (r: Result<T, Error>)
    ensures IsClientError(resp.status) ==> r == Failure(Client(resp.status))
    ensures IsServerError(resp.status) ==> r == Failure(Server(resp.status))
  {
    if IsClientError(resp.status) then Failure(Client(resp.status))
    else if IsServerError(resp.status) then Failure(Server(resp.status))
    else Deserialise(resp)
  }

  /** An error status decides the outcome whatever the body. */
  lemma CheckedIgnoresBodyOnError<T>(a: Response<T>, b: Response<T>)
    requires a.status == b.status
    requires IsClientError(a.status) || IsServerError(a.status)
    ensures CheckedDeserialise(a) == CheckedDeserialise(b)
  {
  }

  /** Any other status is decoded exactly as `deserialise` does. */
  lemma CheckedAgreesOtherwise<T>(resp: Response<T>)
    requires !IsClientError(resp.status) && !IsServerError(resp.status)
    ensures CheckedDeserialise(resp) == Deserialise(resp)
  {
  }

  /**
   * `deserialize` of the asynchronous client: only a status outside the
   * 1xx, 3xx, 4xx and 5xx classes has its body read; a failed read is passed
   * up, and a body read is decoded with the error shape tried on all of it.
   */
  function AsyncDeserialize<T>(resp: AsyncResponse<T>): (r: Result<T, Error>)
    ensures IsClientError(resp.status) ==> r == Failure(Other("4xx status code"))
    ensures IsServerError(resp.status) ==> r == Failure(Other("5xx status code"))
    ensures IsRedirection(resp.status) || IsInformational(resp.status) ==>
      r == Failure(Other("3xx or 1xx status code"))
    ensures IsSuccess(resp.status) && resp.body.Failure? ==> r == Failure(resp.body.error)
  {
    if IsClientError(resp.status) then Failure(Other("4xx status code"))
    else if IsServerError(resp.status) then Failure(Other("5xx status code"))
    else if IsRedirection(resp.status) || IsInformational(resp.status) then
      Failure(Other("3xx or 1xx status code"))
    else
      match resp.body
      case Failure(e) => Failure(e)
      case Success(b) => DecodeBody(b.asTarget, b.asApiError)
  }

  /**
   * A successful status is the only class whose body is decoded. Once read,
   * it decodes to the same value as in the blocking client, and fails when
   * that fails; the two differ only in the bytes the error shape is tried on.
   */
  lemma AsyncDecodesOnlySuccess<T>(resp: AsyncResponse<T>)
    requires resp.status < 600
    ensures AsyncDeserialize(resp).Success? ==> IsSuccess(resp.status) && resp.body.Success?
    ensures IsSuccess(resp.status) && resp.body.Success? ==>
      (AsyncDeserialize(resp).Success? <==> Deserialise(Response(resp.status, Absent, resp.body.value)).Success?) &&
      (AsyncDeserialize(resp).Success? ==> AsyncDeserialize(resp) == Deserialise(Response(resp.status, Absent, resp.body.value)))
    ensures IsSuccess(resp.status) && resp.body.Success? && resp.body.value.consumedAsApiError == resp.body.value.asApiError ==>
      AsyncDeserialize(resp) == Deserialise(Response(resp.status, Absent, resp.body.value))
  {
    ClassesPartition(resp.status);
  }

  /**
   * An error object sent with a 2xx status, whose prefix consumed by the
   * failed blocking decode is not itself an error object, is `Api` for the
   * asynchronous client and `Serde` for the blocking one.
   */
  lemma FallbackBytesDiffer<T>(resp: AsyncResponse<T>)
    requires IsSuccess(resp.status) && resp.body.Success?
    requires resp.body.value.asTarget.Failure?
    requires resp.body.value.asApiError.Some? && resp.body.value.consumedAsApiError.None?
    ensures AsyncDeserialize(resp) == Failure(Api(resp.body.value.asApiError.value))
    ensures Deserialise(Response(resp.status, Absent, resp.body.value)) == Failure(Serde(resp.body.value.asTarget.error))
  {
  }

  /** The asynchronous client never reports `Client` or `Server`; it reports `Other` instead. */
  lemma AsyncNeverClientOrServer<T>(resp: AsyncResponse<T>)
    requires resp.body.Failure? ==> !resp.body.error.Client? && !resp.body.error.Server?
    ensures AsyncDeserialize(resp).Failure? ==>
      !AsyncDeserialize(resp).error.Client? && !AsyncDeserialize(resp).error.Server?
  {
  }
}
