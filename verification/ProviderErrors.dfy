/** How a provider's error is classified, and which errors are worth another attempt. */
module ProviderErrors {
  import opened Wrappers

  datatype ErrorCode =
    | AuthenticationFailed | QuotaExhausted | InvalidSchema | Timeout | RateLimited | NetworkError
    | UpstreamUnavailable | StructuredOutputMissing | SchemaValidationFailed | ModelRefusal
    | InvalidResponse | ProviderFailed

  /** The fields of a thrown error that classification looks at. `explicit` is the first non-blank code
      it carries, `normalized` that code trimmed, lower-cased and with separators replaced, and
      `status` its numeric status or status code; `numericCode` is `code` read as a number. */
  datatype ProviderError = ProviderError(explicit: Option<string>, normalized: string, status: Option<int>,
                                         schemaParam: bool, name: string, code: string, numericCode: Option<int>,
                                         syntaxError: bool)

  function SafeCode(text: string): Option<ErrorCode> {
    match text
    case "authentication_failed" => Some(AuthenticationFailed)
    case "quota_exhausted" => Some(QuotaExhausted)
    case "invalid_schema" => Some(InvalidSchema)
    case "timeout" => Some(Timeout)
    case "rate_limited" => Some(RateLimited)
    case "network_error" => Some(NetworkError)
    case "upstream_unavailable" => Some(UpstreamUnavailable)
    case "structured_output_missing" => Some(StructuredOutputMissing)
    case "schema_validation_failed" => Some(SchemaValidationFailed)
    case "model_refusal" => Some(ModelRefusal)
    case "invalid_response" => Some(InvalidResponse)
    case "provider_failed" => Some(ProviderFailed)
    case _ => None
  }

  function SafeStatus(error: ProviderError): Option<int> {
    if error.status.Some? && 100 <= error.status.value <= 599 then error.status else None
  }

  function StatusCode(status: int): Option<ErrorCode> {
    if status == 401 || status == 403 then Some(AuthenticationFailed)
    else if status == 402 then Some(QuotaExhausted)
    else if status == 408 then Some(Timeout)
    else if status == 429 then Some(RateLimited)
    else if status >= 500 then Some(UpstreamUnavailable)
    else None
  }

  function ByName(error: ProviderError): ErrorCode {
    if error.name in {"AbortError", "TimeoutError"} then Timeout
    else if error.code in {"ECONNRESET", "ENOTFOUND", "ETIMEDOUT", "ECONNREFUSED"} then NetworkError
    else if error.name == "ZodError" || error.syntaxError then InvalidResponse
    else ProviderFailed
  }

  /** classifySafeProviderError. */
  function ClassifySafe(error: ProviderError): ErrorCode {
    if error.normalized in {"insufficient_quota", "exa_daily_search_cap", "resource_exhausted"} then QuotaExhausted
    else if error.normalized in {"invalid_json_schema", "invalid_schema"} then InvalidSchema
    else if error.explicit.Some? && SafeCode(error.explicit.value).Some? then SafeCode(error.explicit.value).value
    else match SafeStatus(error)
      case None => ByName(error)
      case Some(status) =>
        if status == 400 && error.schemaParam then InvalidSchema
        else if StatusCode(status).Some? then StatusCode(status).value
        else ByName(error)
  }

  /** classifyProviderError: what is logged, and what ends an Exa run. */
  function Classify(error: ProviderError): ErrorCode {
    var safe := ClassifySafe(error);
    if !safe.ProviderFailed? then safe
    else
      var number := if error.status.Some? then error.status else error.numericCode;
      if number.Some? && StatusCode(number.value).Some? then StatusCode(number.value).value
      else if error.name == "ZodError" || error.syntaxError then InvalidResponse
      else ProviderFailed
  }

  /** isTransientProviderError. */
  predicate IsTransient(error: ProviderError) {
    ClassifySafe(error) in {Timeout, RateLimited, NetworkError, UpstreamUnavailable}
  }

  /** A transient error is logged under the code that makes it transient; so an exhausted quota is
      never retried, whichever of the two classifications sees it. */
  lemma TransientErrorsAreLoggedAsSuch(error: ProviderError)
    requires IsTransient(error)
    ensures Classify(error) == ClassifySafe(error) && !Classify(error).QuotaExhausted?
  {
  }
}
