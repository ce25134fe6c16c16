/**
 * The gateway's error taxonomy (`ApiError` in src/errors.rs): its four
 * variants, the text each one displays, and the HTTP response each one is
 * rendered as.
 */
module Errors {

  datatype ApiError =
    | NcbiApiError(msg: string)
    | InvalidInput(msg: string)
    | RateLimitExceeded
    | InternalError

  /** An HTTP response as the gateway renders an error: a status code and a text body. */
  datatype Response = Response(status: nat, body: string)

  const BadRequest: nat := 400
  const TooManyRequests: nat := 429
  const InternalServerError: nat := 500

  const NcbiPrefix: string := "NCBI API request failed: "
  const InvalidInputPrefix: string := "Invalid input: "
  const RateLimitText: string := "Rate limit exceeded"
  const InternalErrorText: string := "Internal server error"

  /** The text an error displays (its `#[error(...)]` format). */
  function Display(e: ApiError): (s: string)
    ensures e.NcbiApiError? ==> NcbiPrefix <= s && s[|NcbiPrefix|..] == e.msg
    ensures e.InvalidInput? ==> InvalidInputPrefix <= s && s[|InvalidInputPrefix|..] == e.msg
    ensures e.RateLimitExceeded? ==> s == RateLimitText
    ensures e.InternalError? ==> s == InternalErrorText
  {
    match e
    case NcbiApiError(msg) => NcbiPrefix + msg
    case InvalidInput(msg) => InvalidInputPrefix + msg
    case RateLimitExceeded => RateLimitText
    case InternalError => InternalErrorText
  }

  /**
   * The response an error is rendered as. Every variant is mapped; the two
   * message-carrying variants answer 400 with the bare message, the rate
   * limit 429 and the internal error 500.
   */
  function ErrorResponse(e: ApiError): (r: Response)
    ensures r.status in {BadRequest, TooManyRequests, InternalServerError}
    ensures r.status == BadRequest <==> e.NcbiApiError? || e.InvalidInput?
    ensures r.status == TooManyRequests <==> e.RateLimitExceeded?
    ensures r.status == InternalServerError <==> e.InternalError?
    ensures e.NcbiApiError? || e.InvalidInput? ==> r.body == e.msg
    ensures e.RateLimitExceeded? ==> r.body == "Rate limit exceeded"
    ensures e.InternalError? ==> r.body == "Internal server error"
  {
    match e
    case NcbiApiError(msg) => Response(BadRequest, msg)
    case InvalidInput(msg) => Response(BadRequest, msg)
    case RateLimitExceeded => Response(TooManyRequests, RateLimitText)
    case InternalError => Response(InternalServerError, InternalErrorText)
  }

  /**
   * The rendered body is the displayed text with the variant's prefix taken
   * off: a 400 body carries the message only, never "NCBI API request
   * failed: " or "Invalid input: ".
   */
  lemma BodyIsDisplayWithoutPrefix(e: ApiError)
    ensures e.NcbiApiError? ==> Display(e) == NcbiPrefix + ErrorResponse(e).body
    ensures e.InvalidInput? ==> Display(e) == InvalidInputPrefix + ErrorResponse(e).body
    ensures e.RateLimitExceeded? || e.InternalError? ==> Display(e) == ErrorResponse(e).body
    ensures e.NcbiApiError? || e.InvalidInput? ==> ErrorResponse(e).body != Display(e)
  {
  }

  /** The displayed text determines the error: no two errors display alike. */
  lemma {:induction false} DisplayIsInjective(e1: ApiError, e2: ApiError)
    requires Display(e1) == Display(e2)
    ensures e1 == e2
  {
    var s := Display(e1);
    // The first three characters tell the variants apart:
    // 'N' (NCBI), "Inv" (invalid input), 'R' (rate limit), "Int" (internal).
    assert |s| >= 3;
    match e1
    case NcbiApiError(m1) =>
      assert Display(e2)[0] == s[0] == 'N';
      assert m1 == s[|NcbiPrefix|..] == e2.msg;
    case InvalidInput(m1) =>
      assert Display(e2)[0] == s[0] == 'I' && Display(e2)[2] == s[2] == 'v';
      assert m1 == s[|InvalidInputPrefix|..] == e2.msg;
    case RateLimitExceeded =>
      assert Display(e2)[0] == s[0] == 'R';
    case InternalError =>
      assert Display(e2)[0] == s[0] == 'I' && Display(e2)[2] == s[2] == 't';
  }

  /**
   * The rendered response does not determine the error: an upstream failure
   * and an invalid input with the same message produce identical responses.
   */
  lemma ResponseConflatesUpstreamAndInput(msg: string)
    ensures ErrorResponse(NcbiApiError(msg)) == ErrorResponse(InvalidInput(msg))
    ensures NcbiApiError(msg) != InvalidInput(msg)
  {
  }
}
