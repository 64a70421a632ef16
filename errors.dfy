/** Classification of the errors the client returns. An `ApiError` is the
    Bot API's own refusal (a response with `ok` false); every other error
    (transport, encoding) is an `OtherError`. A nil error is classified like
    an `OtherError`: no predicate holds and its code is -1. */
module Errors {

  datatype Error =
    | ApiError(code: int, description: string)
    | OtherError(message: string)

  const CodeBadRequest := 400
  const CodeUnauthorized := 401
  const CodeForbidden := 403
  const CodeNotFound := 404
  const CodeTooManyRequests := 429

  /** "bot was blocked by the user" */
  predicate IsBlockedError(err: Error)
  {
    err.ApiError? && err.code == CodeForbidden
  }

  predicate IsRateLimitError(err: Error)
  {
    err.ApiError? && err.code == CodeTooManyRequests
  }

  predicate IsNotFoundError(err: Error)
  {
    err.ApiError? && err.code == CodeNotFound
  }

  predicate IsBadRequestError(err: Error)
  {
    err.ApiError? && err.code == CodeBadRequest
  }

  predicate IsUnauthorizedError(err: Error)
  {
    err.ApiError? && err.code == CodeUnauthorized
  }

  predicate IsForbiddenError(err: Error)
  {
    err.ApiError? && err.code == CodeForbidden
  }

  /** The API error code, or -1 for an error that is not an API error. */
  function GetErrorCode(err: Error): int
  {
    if err.ApiError? then err.code else -1
  }

  /** Blocked and forbidden are the same test. */
  lemma BlockedIsForbidden(err: Error)
    ensures IsBlockedError(err) <==> IsForbiddenError(err)
  {
  }

  /** Each predicate is a test on GetErrorCode: -1 is none of the codes, so
      a non-API error satisfies none of them. */
  lemma PredicatesReadErrorCode(err: Error)
    ensures IsBlockedError(err) <==> GetErrorCode(err) == 403
    ensures IsRateLimitError(err) <==> GetErrorCode(err) == 429
    ensures IsNotFoundError(err) <==> GetErrorCode(err) == 404
    ensures IsBadRequestError(err) <==> GetErrorCode(err) == 400
    ensures IsUnauthorizedError(err) <==> GetErrorCode(err) == 401
    ensures IsForbiddenError(err) <==> GetErrorCode(err) == 403
    ensures !err.ApiError? ==> GetErrorCode(err) == -1
  {
  }

  /** An error that is not an API error is never classified. */
  lemma OtherErrorsUnclassified(err: Error)
    requires !err.ApiError?
    ensures !IsBlockedError(err) && !IsRateLimitError(err) && !IsNotFoundError(err)
    ensures !IsBadRequestError(err) && !IsUnauthorizedError(err) && !IsForbiddenError(err)
  {
  }

  function Count(b: bool): nat { if b then 1 else 0 }

  /** The codes are distinct, so at most one class applies. */
  lemma AtMostOneClass(err: Error)
    ensures Count(IsRateLimitError(err)) + Count(IsNotFoundError(err)) + Count(IsBadRequestError(err))
          + Count(IsUnauthorizedError(err)) + Count(IsBlockedError(err)) <= 1
  {
  }
}
