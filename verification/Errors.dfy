/** The gateway's error value, as far as retries and fallbacks look at it. */
module Errors {
  import opened Wrappers

  const REQUEST_CANCELLED := "request_cancelled"

  datatype ErrorField = ErrorField(message: string, typ: Option<string>, code: Option<string>)

  /** `isBifrostError` marks the gateway's own errors; an absent `allowFallbacks` allows them. */
  datatype BifrostError = BifrostError(isBifrostError: bool, status: Option<int>, error: Option<ErrorField>,
                                       allowFallbacks: Option<bool>)

  predicate Cancelled(e: BifrostError) {
    e.error.Some? && e.error.value.typ == Some(REQUEST_CANCELLED)
  }
}
