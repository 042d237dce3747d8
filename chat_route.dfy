/** `POST /api/chat`: guard clauses in a fixed order, then the chat call with the fixed system prompt. */
module ChatRoute {
  import opened Wrappers
  import opened Http
  import GeminiService

  /** The route's call into `chatWithGemini(messages, systemPrompt)`, which returns text and never throws. */
  type Chatter = (seq<Value>, string) -> string

  const MissingKeyError := "API key is not configured"
  const MissingMessagesError := "Invalid request. Messages array is required."
  const FailureError := "Failed to process chat request"
  const SystemPrompt := "You are Vission Assist AI, a helpful assistant designed specifically for visually impaired users. Provide clear, concise, and descriptive responses. Focus on being helpful and providing information that would be most useful for someone who cannot see. If describing directions or locations, be very specific."

  /** The response to one request, given the configured key and the body as parsed. */
  function Post(apiKey: Option<string>, request: RequestBody, chat: Chatter): (r: Response)
    ensures r.status in {200, 400, 500}
    ensures !GeminiService.KeyConfigured(apiKey) ==> r == Response(500, ErrorBody(MissingKeyError, None))
    ensures r.status == 200 <==>
      && GeminiService.KeyConfigured(apiKey)
      && request.Parsed?
      && Read(request.value, "messages").Success?
      && Read(request.value, "messages").value.Array?
    ensures r.status == 200 ==>
      r.body == ReplyBody(chat(Read(request.value, "messages").value.items, SystemPrompt))
    ensures r.status == 400 ==> r.body == ErrorBody(MissingMessagesError, None)
    ensures r.status == 500 && GeminiService.KeyConfigured(apiKey) ==>
      r.body.ErrorBody? && r.body.error == FailureError && r.body.message.Some?
  {
    if !GeminiService.KeyConfigured(apiKey) then
      Response(500, ErrorBody(MissingKeyError, None))
    else match request
      case Unparsable(reason) => Failed(reason)
      case Parsed(body) =>
        match Read(body, "messages")
        case Failure(e) => Failed(e)
        case Success(messages) =>
          if !Truthy(messages) || !messages.Array? then Response(400, ErrorBody(MissingMessagesError, None))
          else Response(200, ReplyBody(chat(messages.items, SystemPrompt)))
  }

  /** The `catch` branch: status 500 with the fixed error and the thrown message. */
  function Failed(message: string): Response {
    Response(500, ErrorBody(FailureError, Some(message)))
  }

  /** A missing key is reported before the body is parsed. */
  lemma KeyCheckedFirst(request1: RequestBody, request2: RequestBody, chat: Chatter)
    ensures Post(None, request1, chat) == Post(None, request2, chat)
  {
  }

  /** A `messages` field that is absent or not an array is a 400, whatever else it is. */
  lemma NonArrayIsBadRequest(key: string, messages: Value, chat: Chatter)
    requires key != "" && !messages.Array?
    ensures Post(Some(key), Parsed(Object(map["messages" := messages])), chat).status == 400
    ensures Post(Some(key), Parsed(Object(map[])), chat).status == 400
  {
  }

  /** A valid request is answered with the chat reply for exactly those messages and the fixed system prompt. */
  lemma ValidRequest(key: string, items: seq<Value>, chat: Chatter)
    requires key != ""
    ensures Post(Some(key), Parsed(Object(map["messages" := Array(items)])), chat)
      == Response(200, ReplyBody(chat(items, SystemPrompt)))
  {
  }
}
