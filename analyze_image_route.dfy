/** `POST /api/analyze-image`: guard clauses in a fixed order, then the vision call. */
module AnalyzeImageRoute {
  import opened Wrappers
  import opened Http
  import GeminiService

  /** The route's call into `analyzeImage(imageData, promptText)`, which returns text and never throws. */
  type Analyzer = (Value, Value) -> string

  const MissingKeyError := "API key is not configured"
  const MissingImageError := "Invalid request. Image data is required."
  const FailureError := "Failed to analyze image"

  /** The response to one request, given the configured key and the body as parsed. */
  function Post(apiKey: Option<string>, request: RequestBody, analyze: Analyzer): (r: Response)
    ensures r.status in {200, 400, 500}
    ensures !GeminiService.KeyConfigured(apiKey) ==> r == Response(500, ErrorBody(MissingKeyError, None))
    ensures r.status == 200 <==>
      && GeminiService.KeyConfigured(apiKey)
      && request.Parsed?
      && Read(request.value, "image").Success?
      && Truthy(Read(request.value, "image").value)
    ensures r.status == 200 ==>
      r.body == AnalysisBody(analyze(Read(request.value, "image").value, Read(request.value, "prompt").value))
    ensures r.status == 400 ==> r.body == ErrorBody(MissingImageError, None)
    ensures r.status == 500 && GeminiService.KeyConfigured(apiKey) ==>
      r.body.ErrorBody? && r.body.error == FailureError && r.body.message.Some?
  {
    if !GeminiService.KeyConfigured(apiKey) then
      Response(500, ErrorBody(MissingKeyError, None))
    else match request
      case Unparsable(reason) => Failed(reason)
      case Parsed(body) =>
        match Read(body, "image")
        case Failure(e) => Failed(e)
        case Success(image) =>
          var prompt := Read(body, "prompt").value;
          if !Truthy(image) then Response(400, ErrorBody(MissingImageError, None))
          else Response(200, AnalysisBody(analyze(image, prompt)))
  }

  /** The `catch` branch: status 500 with the fixed error and the thrown message. */
  function Failed(message: string): Response {
    Response(500, ErrorBody(FailureError, Some(message)))
  }

  /** A missing key is reported before the body is even looked at. */
  lemma KeyCheckedFirst(request1: RequestBody, request2: RequestBody, analyze: Analyzer)
    ensures Post(None, request1, analyze) == Post(None, request2, analyze)
    ensures Post(Some(""), request1, analyze).status == 500
  {
  }

  /** An empty object body is a 400 about the missing image. */
  lemma EmptyBodyIsBadRequest(key: string, analyze: Analyzer)
    requires key != ""
    ensures Post(Some(key), Parsed(Object(map[])), analyze) == Response(400, ErrorBody(MissingImageError, None))
  {
  }

  /** A body of JSON `null` makes the property read throw, which the handler turns into a 500. */
  lemma NullBodyIsServerError(key: string, analyze: Analyzer)
    requires key != ""
    ensures Post(Some(key), Parsed(Null), analyze) == Failed(NullReadError)
  {
  }

  /** With an image, the prompt reaches the analyzer unchanged, present or not. */
  lemma PromptPassedThrough(key: string, image: string, prompt: Value, analyze: Analyzer)
    requires key != "" && image != ""
    ensures Post(Some(key), Parsed(Object(map["image" := Str(image), "prompt" := prompt])), analyze)
      == Response(200, AnalysisBody(analyze(Str(image), prompt)))
    ensures Post(Some(key), Parsed(Object(map["image" := Str(image)])), analyze)
      == Response(200, AnalysisBody(analyze(Str(image), Undefined)))
  {
  }
}
