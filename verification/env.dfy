/** Endpoint configuration (src/config/env.ts): the listing endpoint is an
    optional externally injected override, falling back to a fixed default. */
module Env {
  import opened Wrappers

  const DEFAULT_ENDPOINT: string := "http://localhost:3001/api/applications"

  const MISSING_ENDPOINT_MESSAGE: string :=
    "VITE_LOAN_APPLICATION_ENDPOINT environment variable is not defined"

  /** `config.api.loanApplicationEndpoint`: the override when it is a
      non-empty string (JavaScript `||` treats both `undefined` and `""` as
      absent), the default otherwise. */
  function ResolveEndpoint(override: Option<string>): (endpoint: string)
    ensures |endpoint| > 0
    ensures override.Some? && override.value != "" ==> endpoint == override.value
    ensures override.None? || override.value == "" ==> endpoint == DEFAULT_ENDPOINT
  {
    match override
    case Some(v) => if v != "" then v else DEFAULT_ENDPOINT
    case None => DEFAULT_ENDPOINT
  }

  /** `getApiEndpoint()`: passes the configured endpoint through, and throws
      exactly when it is empty. */
  function GetApiEndpoint(configured: string): (r: Result<string, string>)
    ensures r.Failure? <==> configured == ""
    ensures r.Success? ==> r.value == configured
    ensures r.Failure? ==> r.error == MISSING_ENDPOINT_MESSAGE
  {
    if configured == "" then Failure(MISSING_ENDPOINT_MESSAGE) else Success(configured)
  }

  /** Whatever the environment supplies, `getApiEndpoint()` never throws:
      it returns the resolved endpoint unchanged. */
  lemma GetApiEndpointNeverThrows(override: Option<string>)
    ensures GetApiEndpoint(ResolveEndpoint(override)) == Success(ResolveEndpoint(override))
  {
  }

  /** With no override (or an empty one) the endpoint is the default. */
  lemma DefaultWithoutOverride()
    ensures GetApiEndpoint(ResolveEndpoint(None)) == Success("http://localhost:3001/api/applications")
    ensures GetApiEndpoint(ResolveEndpoint(Some(""))) == Success("http://localhost:3001/api/applications")
  {
  }
}
