/** HTTP status codes and their classes, as the `http` and `http_types` crates define them. */
module HttpStatus {

  /** A status code; the `http` crate accepts three-digit codes from 100 to 999. */
  type StatusCode = n: int | 100 <= n <= 999 witness 200

  predicate IsInformational(s: StatusCode) { 100 <= s < 200 }
  predicate IsSuccess(s: StatusCode) { 200 <= s < 300 }
  predicate IsRedirection(s: StatusCode) { 300 <= s < 400 }
  predicate IsClientError(s: StatusCode) { 400 <= s < 500 }
  predicate IsServerError(s: StatusCode) { 500 <= s < 600 }

  /** The five classes do not overlap, and together cover every code below 600. */
  lemma ClassesPartition(s: StatusCode)
    ensures s < 600 <==>
      IsInformational(s) || IsSuccess(s) || IsRedirection(s) || IsClientError(s) || IsServerError(s)
    ensures IsInformational(s) ==> !IsSuccess(s) && !IsRedirection(s) && !IsClientError(s) && !IsServerError(s)
    ensures IsSuccess(s) ==> !IsRedirection(s) && !IsClientError(s) && !IsServerError(s)
    ensures IsRedirection(s) ==> !IsClientError(s) && !IsServerError(s)
    ensures IsClientError(s) ==> !IsServerError(s)
  {
  }
}
