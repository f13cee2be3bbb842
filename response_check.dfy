/**
 * The guard every catalog endpoint runs on a response before decoding its body
 * (api/utils.py): the `content-type` header must name JSON, or the call raises
 * `ValueError`.
 */
module ResponseCheck {

  import opened Wrappers

  const JsonContentTypes: seq<string> := ["application/json", "application/json; charset=utf-8"]
  const UnexpectedFormat := "Unexpected response format, expected JSON."

  /** Returning normally, or raising `ValueError` with its message. */
  datatype Outcome = Pass | ValueError(message: string)

  /**
   * `check_response`, given the value of the `content-type` header (`None` when
   * the header is missing). The response itself is only read.
   */
  function CheckResponse(contentType: Option<string>): (o: Outcome)
    ensures o.Pass? <==> (contentType == Some("application/json")
                          || contentType == Some("application/json; charset=utf-8"))
    ensures o.ValueError? ==> o.message == UnexpectedFormat
  {
    if contentType.Some? && contentType.value in JsonContentTypes then Pass
    else ValueError(UnexpectedFormat)
  }

  /**
   * The comparison is exact: a missing header, a missing space before
   * `charset`, other letter case, another charset or extra parameters all raise.
   */
  lemma NearMissesRejected()
    ensures CheckResponse(None).ValueError?
    ensures CheckResponse(Some("application/json;charset=utf-8")).ValueError?
    ensures CheckResponse(Some("Application/JSON")).ValueError?
    ensures CheckResponse(Some("application/json; charset=UTF-8")).ValueError?
    ensures CheckResponse(Some("text/html")).ValueError?
    ensures CheckResponse(Some("")).ValueError?
  {
  }
}
