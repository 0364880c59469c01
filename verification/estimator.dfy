/** The client side of the endpoint: `estimateDamage`, which never throws
    and answers every failure with a zero estimate, and `getSeverityColor`. */
module Estimator {
  import opened Wrappers
  import opened JsValues
  import opened Validators
  import opened Sanitizer
  import opened Serialize
  import opened SanitizerProperties
  import Route
  import OpenAiClient

  const BADGE_SUCCESS: string := "badge-success"
  const BADGE_WARNING: string := "badge-warning"
  const BADGE_ERROR: string := "badge-error"
  const BADGE_GHOST: string := "badge-ghost"

  /** `getSeverityColor`: a strict, case-sensitive switch on the level name. */
  function SeverityColor(severity: string): (cls: string)
    ensures cls == BADGE_SUCCESS <==> severity == "minor"
    ensures cls == BADGE_WARNING <==> severity == "moderate"
    ensures cls == BADGE_ERROR <==> severity == "severe"
    ensures cls == BADGE_GHOST <==> severity != "minor" && severity != "moderate" && severity != "severe"
  {
    match severity
    case "minor" => BADGE_SUCCESS
    case "moderate" => BADGE_WARNING
    case "severe" => BADGE_ERROR
    case _ => BADGE_GHOST
  }

  /** Every level a sanitised estimate can hold gets a real badge, and
      different levels get different badges. */
  lemma SeverityColorsDistinct(a: Severity, b: Severity)
    ensures SeverityColor(a.Name()) != BADGE_GHOST
    ensures SeverityColor(a.Name()) == SeverityColor(b.Name()) <==> a == b
  {
  }

  /** What `fetch` gives the client: a rejected promise, or a response with
      its `ok` flag and its body as `response.json()` decodes it (None when
      that rejects). */
  datatype FetchOutcome = FetchRejected | Fetched(ok: bool, body: Option<Json>)

  /** The estimate returned when anything goes wrong. */
  const FALLBACK: Json := JObj(map[
    "totalCost" := JNum(0.0),
    "damages" := JArr([]),
    "laborHours" := JNum(0.0),
    "partsNeeded" := JArr([]),
    "confidence" := JNum(0.0)])

  /** `estimateDamage`: the decoded body of an ok response, otherwise the fallback. */
  function EstimateDamage(outcome: FetchOutcome): (estimate: Json)
    ensures outcome.Fetched? && outcome.ok && outcome.body.Some? ==> estimate == outcome.body.value
    ensures !(outcome.Fetched? && outcome.ok && outcome.body.Some?) ==> estimate == FALLBACK
  {
    match outcome
    case Fetched(true, Some(body)) => body
    case _ => FALLBACK
  }

  /** The fallback is exactly what the server sends for a reply of `{}`, so
      the client cannot tell a failure from an image with no damage. */
  lemma FallbackEqualsEmptyEstimate()
    ensures Sanitize(JObj(map[])).Success?
    ensures FALLBACK == EncodeEstimate(Sanitize(JObj(map[])).value)
  {
    EmptyObjectExample();
    var e := DamageEstimate([], 0.0, [], Num(0.0), Num(0.0), None, None);
    assert EncodeItems([]) == [];
    assert EncodeEstimate(e).fields == FALLBACK.fields;
  }

  /** The JSON body the route sends. */
  function EncodeBody(body: Route.ResponseBody): Json {
    match body
    case EstimateBody(e) => EncodeEstimate(e)
    case ErrorBody(error, details) => JObj(map["error" := JStr(error), "details" := JStr(details)])
  }

  /** The route's response as the client's `fetch` sees it. */
  function Deliver(resp: Route.Response): FetchOutcome {
    Fetched(200 <= resp.status < 300, Some(EncodeBody(resp.body)))
  }

  /** End to end: the client gets the serialised estimate when the route
      succeeded and the fallback for every error status. */
  lemma ClientSeesRouteOutcome(
    req: Route.RequestBody,
    complete: OpenAiClient.ChatRequest -> OpenAiClient.Completion,
    parse: string -> Option<Json>)
    ensures var resp := Route.Post(req, complete, parse);
      EstimateDamage(Deliver(resp)) ==
        if resp.body.EstimateBody? then EncodeEstimate(resp.body.estimate) else FALLBACK
  {
  }

  /** End to end: an admitted image whose reply is non-empty text that
      parses to a value the sanitiser accepts reaches the client as the
      serialised sanitised estimate. */
  lemma GoodReplyReachesClient(
    req: Route.RequestBody,
    complete: OpenAiClient.ChatRequest -> OpenAiClient.Completion,
    parse: string -> Option<Json>,
    text: string, raw: Json)
    requires Route.Admitted(req)
    requires complete(OpenAiClient.BuildRequest(Route.AdmittedImage(req))) == OpenAiClient.Completed(Some(text))
    requires text != "" && parse(text) == Some(raw)
    requires !SanitizeThrows(raw)
    ensures Route.Post(req, complete, parse).status == 200
    ensures EstimateDamage(Deliver(Route.Post(req, complete, parse))) == EncodeEstimate(Sanitize(raw).value)
  {
  }

  /** End to end: when the parsed reply makes the sanitiser throw, the route
      answers 500 and the client shows the fallback. */
  lemma ThrowingReplyGivesFallback(
    req: Route.RequestBody,
    complete: OpenAiClient.ChatRequest -> OpenAiClient.Completion,
    parse: string -> Option<Json>,
    text: string, raw: Json)
    requires Route.Admitted(req)
    requires complete(OpenAiClient.BuildRequest(Route.AdmittedImage(req))) == OpenAiClient.Completed(Some(text))
    requires text != "" && parse(text) == Some(raw)
    requires SanitizeThrows(raw)
    ensures Route.Post(req, complete, parse).status == 500
    ensures EstimateDamage(Deliver(Route.Post(req, complete, parse))) == FALLBACK
  {
  }
}
