/** The `POST` handler of the damage-analysis endpoint as a pure function
    from the request body and the collaborators to the HTTP response: the
    validation order, and the mapping from thrown errors to status codes. */
module Route {
  import opened Wrappers
  import opened JsValues
  import opened Validators
  import opened Sanitizer
  import opened OpenAiClient

  /** The body as `request.json()` delivers it, or the message of the
      SyntaxError it rejects with. */
  datatype RequestBody = Unreadable(message: string) | Readable(json: Json)

  datatype ResponseBody =
    | EstimateBody(estimate: DamageEstimate)
    | ErrorBody(error: string, details: string)

  /** Status, body, and whether the `Cache-Control: no-store` header is set. */
  datatype Response = Response(status: nat, body: ResponseBody, noStore: bool)

  const MISSING_IMAGE: ResponseBody := ErrorBody("Image data is required", "Missing imageBase64 field")
  const INVALID_IMAGE: ResponseBody :=
    ErrorBody("Invalid image format", "Expected base64-encoded image with data URI scheme")
  const UNAVAILABLE: ResponseBody := ErrorBody("Service temporarily unavailable", "Unable to connect to AI service")
  const CONFIGURATION_ERROR: ResponseBody := ErrorBody("Configuration error", "Invalid API credentials")
  const ANALYSIS_FAILED: string := "Failed to analyze damage"
  const UNKNOWN_ERROR: string := "Unknown error occurred"

  /** The TypeError of destructuring a null body. */
  const DESTRUCTURE_NULL: string :=
    "Cannot destructure property 'imageBase64' of '(intermediate value)' as it is null."

  /** `const { imageBase64 } = await request.json()`. */
  function ImageField(req: RequestBody): (r: Result<Option<Json>, Thrown>)
    ensures r.Failure? <==> req.Unreadable? || req.json.JNull?
    ensures req.Unreadable? ==> r == Failure(PlainError(req.message))
    ensures req.Readable? && req.json.JNull? ==> r == Failure(PlainError(DESTRUCTURE_NULL))
    ensures r.Success? ==> r.value == Prop(req.json, "imageBase64")
  {
    match req
    case Unreadable(m) => Failure(PlainError(m))
    case Readable(j) => if j.JNull? then Failure(PlainError(DESTRUCTURE_NULL)) else Success(Prop(j, "imageBase64"))
  }

  /** The request passes both checks: it carries a string image that
      `validateImageData` accepts. */
  predicate Admitted(req: RequestBody) {
    var field := ImageField(req);
    field.Success? && field.value.Some? && field.value.value.JStr? && ValidateImageData(field.value.value.s)
  }

  function AdmittedImage(req: RequestBody): string
    requires Admitted(req)
  {
    ImageField(req).value.value.s
  }

  /** A connection failure is recognised by its `code`. */
  predicate IsConnectionError(e: Thrown) {
    e.code == Some("ECONNREFUSED") || e.code == Some("ETIMEDOUT")
  }

  /** The `catch` block: connection errors first, then bad credentials,
      then everything else with the error's message. */
  function ErrorResponse(e: Thrown): (resp: Response)
    ensures resp.status == 503 <==> IsConnectionError(e)
    ensures resp.status == 500 <==> !IsConnectionError(e)
    ensures resp.body.ErrorBody? && !resp.noStore
    ensures IsConnectionError(e) ==> resp.body == UNAVAILABLE
    ensures !IsConnectionError(e) && e.status == Some(401) ==> resp.body == CONFIGURATION_ERROR
    ensures !IsConnectionError(e) && e.status != Some(401) ==>
              resp.body == ErrorBody(ANALYSIS_FAILED, if e.message != "" then e.message else UNKNOWN_ERROR)
  {
    if IsConnectionError(e) then Response(503, UNAVAILABLE, false)
    else if e.status == Some(401) then Response(500, CONFIGURATION_ERROR, false)
    else Response(500, ErrorBody(ANALYSIS_FAILED, if e.message != "" then e.message else UNKNOWN_ERROR), false)
  }

  /** `POST`. A truthy image that is not a string is refused as an invalid format. */
  function Post(req: RequestBody, complete: ChatRequest -> Completion, parse: string -> Option<Json>)
    : (resp: Response)
    ensures resp.status == 200 || resp.status == 400 || resp.status == 500 || resp.status == 503
    ensures resp.status == 200 <==> resp.body.EstimateBody?
    ensures resp.noStore <==> resp.status == 200
    ensures resp.status == 400 <==> ImageField(req).Success? && !Admitted(req)
    ensures ImageField(req).Success? && !Truthy(ImageField(req).value) ==> resp == Response(400, MISSING_IMAGE, false)
    ensures ImageField(req).Success? && Truthy(ImageField(req).value) && !Admitted(req) ==>
              resp == Response(400, INVALID_IMAGE, false)
    ensures ImageField(req).Failure? ==> resp == ErrorResponse(ImageField(req).error)
    ensures resp.status == 200 ==>
              Admitted(req) && Analyze(AdmittedImage(req), complete, parse) == Success(resp.body.estimate)
    ensures Admitted(req) && Analyze(AdmittedImage(req), complete, parse).Success? ==>
              resp == Response(200, EstimateBody(Analyze(AdmittedImage(req), complete, parse).value), true)
    ensures Admitted(req) && Analyze(AdmittedImage(req), complete, parse).Failure? ==>
              resp == ErrorResponse(Analyze(AdmittedImage(req), complete, parse).error)
  {
    match ImageField(req)
    case Failure(e) => ErrorResponse(e)
    case Success(image) =>
      if !Truthy(image) then Response(400, MISSING_IMAGE, false)
      else if !(image.value.JStr? && ValidateImageData(image.value.s)) then Response(400, INVALID_IMAGE, false)
      else
        match Analyze(image.value.s, complete, parse)
        case Success(estimate) => Response(200, EstimateBody(estimate), true)
        case Failure(e) => ErrorResponse(e)
  }

  /** A request that fails either check gets the same response whatever the
      model service and the parser would do: no analysis is run for it. */
  lemma RejectedRequestNeverAnalysed(
    req: RequestBody,
    c1: ChatRequest -> Completion, p1: string -> Option<Json>,
    c2: ChatRequest -> Completion, p2: string -> Option<Json>)
    requires !Admitted(req)
    ensures Post(req, c1, p1) == Post(req, c2, p2)
  {
  }

  /** A `null` body fails the destructuring with a plain TypeError, which
      the catch-all branch answers with 500 and the TypeError's message. */
  lemma NullBodyIsAnalysisFailure(complete: ChatRequest -> Completion, parse: string -> Option<Json>)
    ensures Post(Readable(JNull), complete, parse) ==
            Response(500, ErrorBody(ANALYSIS_FAILED, DESTRUCTURE_NULL), false)
  {
  }

  /** Connection codes take precedence over a 401 status. */
  lemma ConnectionErrorBeats401(message: string)
    ensures ErrorResponse(Thrown(Some("ETIMEDOUT"), Some(401), message)).status == 503
  {
  }
}
