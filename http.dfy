/** The request and response of an edge function, reduced to what the handlers read and write. */
module Http {
  import opened Wrappers
  import opened Json

  /**
   * `body` is what `await req.json()` yields; `None` when it rejects (a body that
   * is not JSON).
   */
  datatype Request = Request(httpMethod: string, body: Option<Json>)

  /**
   * Status and JSON body; `None` is the `null` body of the preflight answer. The
   * CORS and content-type headers, the same on every response, are not modelled.
   */
  datatype Response = Response(status: nat, body: Option<Json>)

  /** A request body that `await req.json()` yields and that can be destructured. */
  predicate BodyReadable(req: Request) {
    req.body.Some? && req.body.value != JNull
  }

  /** The body's property `key`, or `None` when it has none. */
  function BodyField(req: Request, key: string): Option<Json> {
    if req.body.Some? && req.body.value.JObject? && key in req.body.value.fields
    then Some(req.body.value.fields[key]) else None
  }

  /** The answer to a CORS preflight (`OPTIONS`) request: default status, null body. */
  const PreflightResponse: Response := Response(200, None)

  function ErrorResponse(status: nat, message: string): Response {
    Response(status, Some(ErrorBody(message)))
  }

  /** `Deno.env.get('OPENAI_API_KEY')` is truthy: set and non-empty. */
  predicate KeyConfigured(apiKey: Option<string>) {
    apiKey.Some? && apiKey.value != ""
  }
}
