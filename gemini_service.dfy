/**
 * The server-side client of the generative model: the API-key guard, the
 * two-part vision request, and the reshaping of a chat transcript into the
 * history-plus-last-message form the chat session expects.
 *
 * The model itself is a parameter: a function from the request to `Some`
 * reply text, or `None` when the SDK call (or its dynamic import) throws.
 */
module GeminiService {
  import opened Wrappers
  import opened Text

  /** A chat message as the client sends it: `{role, content}`. */
  datatype ChatMessage = ChatMessage(role: string, content: string)

  /** A formatted chat turn: a role and its single text part. */
  datatype Turn = Turn(role: string, text: string)

  /** One part of a vision request. */
  datatype Part = InlineData(data: string, mimeType: string) | TextPart(text: string)

  type ChatModel = (seq<Turn>, string) -> Option<string>
  type VisionModel = seq<Part> -> Option<string>
  type TextModel = string -> Option<string>

  const TextApology := "I'm sorry, I couldn't process your request at the moment. Please try again later."
  const ImageApology := "I'm sorry, I couldn't analyze this image at the moment. The scene appears to have some objects and surroundings, but please try again for a more detailed description."
  const DefaultImagePrompt := "Describe this image in detail, focusing on any potential obstacles, surroundings, and important elements that would be helpful for a visually impaired person to know about."
  const JpegMime := "image/jpeg"
  /** The user turn put in front of a chat that does not start with one. */
  const DefaultUserText := "Hello"

  /** `process.env.GOOGLE_API_KEY` is set to a non-empty value. */
  predicate KeyConfigured(apiKey: Option<string>) {
    apiKey.Some? && apiKey.value != ""
  }

  // ---------------------------------------------------------------- chat

  /** The role mapping of the `map` step: "user" stays, every other role becomes "model". */
  function ToTurn(m: ChatMessage): (t: Turn)
    ensures t.role == (if m.role == "user" then "user" else "model")
    ensures t.text == m.content
  {
    Turn(if m.role == "user" then "user" else "model", m.content)
  }

  /** The `filter` (drop "system" messages) and `map` (to turns) steps. */
  function Formatted(ms: seq<ChatMessage>): seq<Turn> {
    if ms == [] then []
    else (if ms[0].role == "system" then [] else [ToTurn(ms[0])]) + Formatted(ms[1..])
  }

  /** Every formatted turn is a user or model turn, so none is a system turn. */
  lemma {:induction false} FormattedRoles(ms: seq<ChatMessage>)
    ensures forall t :: t in Formatted(ms) ==> t.role == "user" || t.role == "model"
    ensures |Formatted(ms)| <= |ms|
  {
    if ms != [] {
      FormattedRoles(ms[1..]);
    }
  }

  /** Formatting works message by message: it distributes over concatenation. */
  lemma {:induction false} FormattedAppend(a: seq<ChatMessage>, b: seq<ChatMessage>)
    ensures Formatted(a + b) == Formatted(a) + Formatted(b)
  {
    if a == [] {
      assert a + b == b;
    } else {
      assert (a + b)[1..] == a[1..] + b;
      FormattedAppend(a[1..], b);
    }
  }

  /** A single message is dropped when it is a system message and mapped otherwise. */
  lemma FormattedSingle(m: ChatMessage)
    ensures Formatted([m]) == if m.role == "system" then [] else [ToTurn(m)]
  {
    assert [m][1..] == [];
  }

  /** Without system messages, formatting keeps every message, in order, as a turn. */
  lemma {:induction false} FormattedWithoutSystem(ms: seq<ChatMessage>)
    requires forall i :: 0 <= i < |ms| ==> ms[i].role != "system"
    ensures |Formatted(ms)| == |ms|
    ensures forall i :: 0 <= i < |ms| ==> Formatted(ms)[i] == ToTurn(ms[i])
  {
    if ms != [] {
      FormattedWithoutSystem(ms[1..]);
      var f := Formatted(ms);
      assert f == [ToTurn(ms[0])] + Formatted(ms[1..]);
      forall i | 0 <= i < |ms|
        ensures f[i] == ToTurn(ms[i])
      {
        if i > 0 {
          assert ms[1..][i - 1] == ms[i];
        }
      }
    }
  }

  /** The `unshift` rule: a "Hello" user turn goes in front unless the list already starts with a user turn. */
  function WithLeadingUser(ts: seq<Turn>): seq<Turn> {
    if |ts| == 0 || ts[0].role != "user" then [Turn("user", DefaultUserText)] + ts else ts
  }

  /** The text of the first turn once the system prompt is spliced into it. */
  function Prompted(systemPrompt: string, text: string): string {
    systemPrompt + "\n\nUser: " + text
  }

  /** The turns after the in-place edits of `chatWithGemini`, as one value. */
  function Prepared(ms: seq<ChatMessage>, systemPrompt: Option<string>): seq<Turn> {
    var ts := WithLeadingUser(Formatted(ms));
    if Truthy(systemPrompt) && |ts| > 0 && ts[0].role == "user"
    then ts[0 := Turn("user", Prompted(systemPrompt.value, ts[0].text))]
    else ts
  }

  /** The prepared list is never empty, starts with a user turn and has no system turn. */
  lemma PreparedShape(ms: seq<ChatMessage>, systemPrompt: Option<string>)
    ensures var p := Prepared(ms, systemPrompt);
      && |p| > 0 && p[0].role == "user"
      && (forall t :: t in p ==> t.role == "user" || t.role == "model")
  {
    FormattedRoles(ms);
  }

  /** One turn is added exactly when the formatted list is empty or starts with a model turn. */
  lemma PreparedLength(ms: seq<ChatMessage>, systemPrompt: Option<string>)
    ensures var f := Formatted(ms);
      |Prepared(ms, systemPrompt)| == |f| + (if |f| == 0 || f[0].role != "user" then 1 else 0)
  {
  }

  /** The system prompt changes only the first turn's text; every other turn is the formatted one. */
  lemma PreparedPromptOnlyFirst(ms: seq<ChatMessage>, systemPrompt: Option<string>)
    ensures var n := WithLeadingUser(Formatted(ms));
      var p := Prepared(ms, systemPrompt);
      && |p| == |n|
      && p[0] == (if Truthy(systemPrompt) then Turn("user", Prompted(systemPrompt.value, n[0].text)) else n[0])
      && p[1..] == n[1..]
  {
  }

  /** The history split off the prepared turns starts with a user turn and has no system turn. */
  lemma PreparedHistory(ms: seq<ChatMessage>, systemPrompt: Option<string>)
    ensures |Prepared(ms, systemPrompt)| > 0
    ensures var p := Prepared(ms, systemPrompt);
      var h := p[..|p| - 1];
      (h == [] || h[0].role == "user") && forall t :: t in h ==> t.role != "system"
  {
    PreparedShape(ms, systemPrompt);
    var p := Prepared(ms, systemPrompt);
    assert forall t :: t in p[..|p| - 1] ==> t in p;
  }

  /** The text sent with `sendMessage`: the last turn's text if it is a user turn, "Hello" otherwise. */
  function LastText(ts: seq<Turn>): string
    requires |ts| > 0
  {
    var last := ts[|ts| - 1];
    if last.role == "user" then last.text else DefaultUserText
  }

  /**
   * The formatting steps of `chatWithGemini` as they run: filter and map,
   * `unshift` a greeting, overwrite the first turn's text, then split off
   * the history (`slice(0, -1)`) and the message to send.
   */
  method PrepareChat(ms: seq<ChatMessage>, systemPrompt: Option<string>) returns (history: seq<Turn>, message: string)
    ensures var p := Prepared(ms, systemPrompt);
      |history| + 1 == |p| && history == p[..|history|] && message == LastText(p)
    ensures history == [] || history[0].role == "user"
    ensures forall t :: t in history ==> t.role != "system"
  {
    var formatted := Formatted(ms);
    if |formatted| == 0 || formatted[0].role != "user" {
      formatted := [Turn("user", DefaultUserText)] + formatted;
    }
    assert formatted == WithLeadingUser(Formatted(ms));
    if Truthy(systemPrompt) && |formatted| > 0 && formatted[0].role == "user" {
      var first := formatted[0].text;
      formatted := formatted[0 := Turn("user", Prompted(systemPrompt.value, first))];
    }
    assert formatted == Prepared(ms, systemPrompt);
    PreparedHistory(ms, systemPrompt);
    history := formatted[..|formatted| - 1];
    var last := formatted[|formatted| - 1];
    message := if last.role == "user" then last.text else DefaultUserText;
  }

  /**
   * `chatWithGemini`: the apology when the key is missing or the model call
   * throws, the model's text otherwise; never an exception.
   */
  method ChatWithGemini(apiKey: Option<string>, ms: seq<ChatMessage>, systemPrompt: Option<string>, model: ChatModel)
    returns (reply: string)
    ensures !KeyConfigured(apiKey) ==> reply == TextApology
    ensures KeyConfigured(apiKey) ==>
      var p := Prepared(ms, systemPrompt);
      reply == model(p[..|p| - 1], LastText(p)).GetOr(TextApology)
  {
    if !KeyConfigured(apiKey) {
      return TextApology;
    }
    var history, message := PrepareChat(ms, systemPrompt);
    ghost var p := Prepared(ms, systemPrompt);
    assert history == p[..|p| - 1];
    var result := model(history, message);
    reply := result.GetOr(TextApology);
  }

  // -------------------------------------------------------------- vision

  /** The `parts` array of `analyzeImage`: the JPEG image first, then the prompt or the default description. */
  method BuildParts(image: string, prompt: Option<string>) returns (parts: seq<Part>)
    ensures |parts| == 2
    ensures parts[0] == InlineData(image, JpegMime)
    ensures Truthy(prompt) ==> parts[1] == TextPart(prompt.value)
    ensures !Truthy(prompt) ==> parts[1] == TextPart(DefaultImagePrompt)
  {
    parts := [InlineData(image, JpegMime)];
    if prompt.Some? && prompt.value != "" {
      parts := parts + [TextPart(prompt.value)];
    } else {
      parts := parts + [TextPart(DefaultImagePrompt)];
    }
  }

  /** `analyzeImage`: the apology when the key is missing or the model call throws. */
  method AnalyzeImage(apiKey: Option<string>, image: string, prompt: Option<string>, model: VisionModel)
    returns (reply: string)
    ensures !KeyConfigured(apiKey) ==> reply == ImageApology
    ensures KeyConfigured(apiKey) ==>
      var text := if Truthy(prompt) then prompt.value else DefaultImagePrompt;
      reply == model([InlineData(image, JpegMime), TextPart(text)]).GetOr(ImageApology)
  {
    if !KeyConfigured(apiKey) {
      return ImageApology;
    }
    var parts := BuildParts(image, prompt);
    assert parts == [parts[0], parts[1]];
    reply := model(parts).GetOr(ImageApology);
  }

  /** `generateTextResponse`: the apology when the key is missing or the model call throws. */
  method GenerateTextResponse(apiKey: Option<string>, prompt: string, model: TextModel) returns (reply: string)
    ensures reply == if KeyConfigured(apiKey) then model(prompt).GetOr(TextApology) else TextApology
  {
    if !KeyConfigured(apiKey) {
      return TextApology;
    }
    reply := model(prompt).GetOr(TextApology);
  }
}
