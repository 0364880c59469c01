/** `analyzeDamageWithOpenAI`: builds the one chat-completion request for an
    image and turns the reply into an estimate. The SDK call itself is a
    parameter (`complete`), and so is `JSON.parse` (`parse`, None when the
    text does not parse). */
module OpenAiClient {
  import opened Wrappers
  import opened JsValues
  import opened Sanitizer

  const MODEL: string := "gpt-4o"
  const MAX_TOKENS: nat := 2000
  const TEMPERATURE: real := 0.1
  const IMAGE_DETAIL: string := "high"
  const RESPONSE_FORMAT: string := "json_object"

  /** The two fixed instruction texts sent with every request. */
  datatype Prompt = SystemPrompt | UserPrompt

  /** The fields of the chat-completion request that this code sets. */
  datatype ChatRequest = ChatRequest(
    model: string,
    systemPrompt: Prompt,
    userPrompt: Prompt,
    imageUrl: string,
    imageDetail: string,
    maxTokens: nat,
    temperature: real,
    responseFormat: string)

  /** A thrown JavaScript error: the optional `code` and `status` the route
      inspects, and its `message`. */
  datatype Thrown = Thrown(code: Option<string>, status: Option<int>, message: string)

  /** An `Error` raised by this code or a TypeError: no code, no status. */
  function PlainError(message: string): Thrown {
    Thrown(None, None, message)
  }

  /** The outcome of the SDK call: the first choice's message content, None
      standing for null, or the error the call threw. */
  datatype Completion = Completed(content: Option<string>) | CallFailed(error: Thrown)

  const EMPTY_RESPONSE: string := "Empty response from OpenAI"
  const INVALID_JSON: string := "Invalid JSON response from AI model"

  /** The request for one image: everything but the image URL is constant. */
  function BuildRequest(imageBase64: string): (req: ChatRequest)
    ensures req.imageUrl == imageBase64
    ensures req.maxTokens == MAX_TOKENS && req.temperature == TEMPERATURE
    ensures req.responseFormat == RESPONSE_FORMAT
  {
    ChatRequest(MODEL, SystemPrompt, UserPrompt, imageBase64, IMAGE_DETAIL, MAX_TOKENS, TEMPERATURE, RESPONSE_FORMAT)
  }

  /** Two requests differ only in the image, and differ whenever the images do. */
  lemma RequestDependsOnlyOnImage(a: string, b: string)
    ensures BuildRequest(a).(imageUrl := b) == BuildRequest(b)
    ensures BuildRequest(a) == BuildRequest(b) <==> a == b
  {
  }

  /** Content that is null or empty counts as no reply. */
  predicate EmptyContent(content: Option<string>) {
    content.None? || content.value == ""
  }

  /** The tail of `analyzeDamageWithOpenAI`: an empty reply and text that
      does not parse both fail, and only parsed JSON reaches the sanitiser. */
  function HandleContent(content: Option<string>, parse: string -> Option<Json>): (r: Result<DamageEstimate, Thrown>)
    ensures EmptyContent(content) ==> r == Failure(PlainError(EMPTY_RESPONSE))
    ensures !EmptyContent(content) && parse(content.value).None? ==> r == Failure(PlainError(INVALID_JSON))
    ensures !EmptyContent(content) && parse(content.value).Some? ==>
              r == Sanitize(parse(content.value).value).MapFailure(PlainError)
    ensures r.Success? ==>
              && !EmptyContent(content)
              && parse(content.value).Some?
              && Sanitize(parse(content.value).value) == Success(r.value)
  {
    if EmptyContent(content) then Failure(PlainError(EMPTY_RESPONSE))
    else
      match parse(content.value)
      case None => Failure(PlainError(INVALID_JSON))
      case Some(raw) => Sanitize(raw).MapFailure(PlainError)
  }

  /** `analyzeDamageWithOpenAI`: an error of the SDK call propagates as it is. */
  function Analyze(imageBase64: string, complete: ChatRequest -> Completion, parse: string -> Option<Json>)
    : (r: Result<DamageEstimate, Thrown>)
    ensures complete(BuildRequest(imageBase64)).CallFailed? ==>
              r == Failure(complete(BuildRequest(imageBase64)).error)
    ensures complete(BuildRequest(imageBase64)).Completed? ==>
              r == HandleContent(complete(BuildRequest(imageBase64)).content, parse)
  {
    match complete(BuildRequest(imageBase64))
    case CallFailed(e) => Failure(e)
    case Completed(content) => HandleContent(content, parse)
  }

  /** Text that does not parse is never repaired, whatever the sanitiser would do. */
  lemma UnparseableReplyFails(content: Option<string>, parse: string -> Option<Json>)
    requires !EmptyContent(content) && parse(content.value).None?
    ensures HandleContent(content, parse).Failure?
    ensures HandleContent(content, parse).error.message == INVALID_JSON
  {
  }

  /** An empty reply fails before the parser is consulted. */
  lemma EmptyReplyNeverParsed(content: Option<string>, p1: string -> Option<Json>, p2: string -> Option<Json>)
    requires EmptyContent(content)
    ensures HandleContent(content, p1) == HandleContent(content, p2)
  {
  }
}
