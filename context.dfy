/** The inputs every provider shares: the process environment (read by the
    Python code through os.environ, passed here as a value), the brief's
    generator parameters, and the exceptions the providers raise. */
module Context {
  import opened Wrappers

  /** The environment variables the dispatcher and its providers read. */
  datatype Env = Env(
    genProvider: Option<string>,      // GEN_PROVIDER
    stabilityKey: Option<string>,     // STABILITY_API_KEY
    stabilityHost: Option<string>,    // STABILITY_API_HOST
    stabilityEngine: Option<string>,  // STABILITY_ENGINE
    fireflyKey: Option<string>)       // FIREFLY_API_KEY

  /** The generator parameters that change control flow; the others (steps,
      guidance_scale, seed) only go into request payloads. */
  datatype Params = Params(
    promptTemplate: Option<string>,   // "prompt_template"
    apiKey: Option<string>,           // "api_key"
    engine: Option<string>)           // "engine"

  /** The empty mapping `{}`. */
  const NoParams := Params(None, None, None)

  /** Python truthiness of an optional string: None and "" are false. */
  predicate Truthy(o: Option<string>) {
    o.Some? && o.value != ""
  }

  /** Python's `a or b` on optional strings. */
  function Or(a: Option<string>, b: Option<string>): (r: Option<string>)
    ensures Truthy(r) <==> Truthy(a) || Truthy(b)
    ensures Truthy(a) ==> r == a
    ensures !Truthy(a) ==> r == b
  {
    if Truthy(a) then a else b
  }

  /** The classes of exception the providers raise. */
  datatype FailureKind =
    | RuntimeError           // RuntimeError raised by the provider itself
    | HttpError(status: int) // requests.HTTPError carrying a response
    | TransportError         // connection errors and timeouts from requests
    | DecodeError            // JSON, base64 or image decoding failed
    | FormatError            // str.format rejected the prompt template

  /** An exception; `message` is what str(e) shows. */
  datatype Failure = Failure(kind: FailureKind, message: string)
}
