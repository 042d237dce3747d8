/**
 * The outward actions of the pages, recorded rather than performed: route
 * changes, toasts, vibrations and the two API requests. Speech goes through
 * the synthesizer object instead.
 */
module Effects {
  import GeminiService

  datatype Effect =
    | Navigate(path: string)
    | Toast(title: string)
    | Vibrate(pattern: seq<nat>)
    | PostAnalyzeImage(image: string, prompt: string)
    | PostChat(messages: seq<GeminiService.ChatMessage>)

  /** How a request to one of the API routes ends: its answer, or a failure (thrown fetch, non-ok status, bad JSON). */
  datatype Outcome = Answered(text: string) | Failed
}
