/** The upstream API error and the attributes the proxy reads off it (proxy/internal/commandcode/client.go). */
module Commandcode {

  /** Each boolean is the answer of the predicate of the same name on the error. */
  datatype ApiError = ApiError(
    status: int,
    message: string,
    retryAfter: int,           // nanoseconds; 0 when the server gave no guidance
    requestTooLarge: bool,
    zdrUnavailable: bool,
    spendCapExceeded: bool,
    insufficientCredits: bool,
    rateLimited: bool,
    modelNotInPlan: bool,
    modelNotRecognized: bool,
    namesBadCredential: bool)  // carries authentication_error or invalid_api_key
}
