# Vision Assist AI: the decision and state rules, in Dafny

Vision Assist AI is a web front end for visually impaired users.

- The home page speaks a welcome and opens one of three features by voice.
- The video analyzer (`/scan`) takes a frame from the device camera or from a "hardware" stream given by URL. It sends the frame to `/api/analyze-image` with an optional spoken question, then shows and speaks the answer. It falls back to a fixed offline answer when anything fails.
- The voice assistant (`/gpt`) keeps a chat with a generative model through `/api/chat`.
- Settings are kept in the browser's key-value store.
- An emergency button asks for a second press before it activates.

This project models the rules inside that glue:

- the three voice-command classifiers;
- the scan and chat page sessions;
- the server-side formatting of chat and vision requests;
- the two API route handlers;
- the speech-recognition and speech-synthesis hooks;
- the settings provider;
- the emergency button.

Everything the browser, the network or the model does is an input or a recorded action:

- **Camera permission** is a boolean `granted`.
- **A captured frame** is `Frame`: `NotReady` or `Ready(dataUrl)`.
- **The random index of the offline answer** is a parameter `mockIndex < |MockResponses|`.
- **The answer to an API request** is `Effects.Outcome`: `Answered(text)` or `Failed`. It is fed to the page as a separate completion step.
- **The model behind the server functions** is a function parameter. It returns `None` where the SDK call throws.
- **Route changes, toasts, vibrations and the two API requests** are appended to an `effects` log.
- **Speech** goes through a `Synthesizer` object whose `queue` holds the utterances handed to the platform.

Files:

- `wrappers.dfy`: `Option` and `Result`.
- `text.dfy`: JavaScript's `trim`, `toLowerCase`, `includes` and `indexOf`.
- `phrase_table.dfy`: the first-match rule shared by the classifiers.
- `effects.dfy`: the recorded actions.
- `http.dfy`: JSON values and responses.
- The remaining files each model one source file:
  - `scan_page.dfy`, `gpt_page.dfy`, `home_page.dfy`
  - `gemini_service.dfy`, `analyze_image_route.dfy`, `chat_route.dfy`
  - `speech_recognition.dfy`, `speech_synthesis.dfy`
  - `accessibility.dfy`, `emergency.dfy`

The classifiers, the request formatting and the route handlers are functions with lemmas about them.

The pages, hooks, settings provider and emergency button are classes whose methods update fields:

- **Scan page.** Each method is proved to take the observed state `Now()` to a step function of the old one: `Captured`, `Begun`, `Completed`, `Dispatched`, `Pressed`, and so on. The lemmas about the page are stated on those step functions. The page invariant `Consistent` holds after every method:
  - at most one camera source is on;
  - processing means a request is out.
- **Chat page.** The invariant says:
  - the conversation is the greeting followed by alternating user and assistant messages;
  - a request is out exactly when the last message is the user's.

In the following places the code does not do what the application is meant to do. The model follows the code:

- **Switching sources.** Switching from the device camera to the hardware stream does not stop the camera's media tracks (`ScanPage.HardwareSwitchKeepsLocalTracks`).
- **Unrecognised transcripts.** An unrecognised transcript with the camera off does nothing: nothing is spoken.
- **The question fallback.** Only the device camera makes a transcript a question. The hardware stream does not (`ScanPage.VoiceNeedsLocalCamera`).
- **The question and the prompt.** A spoken question replaces the default prompt. It is not prefixed to it.
- **Phrase priority over emergencies.** A transcript that mentions a navigation phrase and "emergency" navigates rather than raising the emergency (`GptPage.HomeBeforeEmergency`, `ScanPage.HomeBeforeCamera`).
- **Overlapping requests.** More than one analysis request can be outstanding on the scan page:
  - a listening window opened before a capture can deliver a question while that capture is processing;
  - the in-flight requests are a list.
- **English only.** There is no second-language phrase table and no voice selection by language tag. Only the English phrases and the English-voice preference are modelled.
- **Home page speech.** The home page speaks its announcements and its "Listening" prompt whatever the voice-feedback setting. Only the welcome depends on it.
- **Home page listening flag.** The home page's own listening flag is not told when the listening window times out (`HomePage.ListeningFlagDrifts`).

## Model

| member | source | states |
|---|---|---|
| Text.Trim | app/scan/page.tsx:102-110 | the trimmed string is the input with a blank prefix and a blank suffix cut off, and nothing else; it is empty exactly when the input is all white space, and otherwise starts and ends with a non-space |
| Text.TrimBlank | app/scan/page.tsx:55 | trimming leaves nothing exactly when the string holds only white space |
| Text.TrimContained | app/scan/page.tsx:110 | the trimmed string occurs inside the original |
| Text.LowerChar | app/scan/page.tsx:57 | lower-casing a character neither creates nor removes white space |
| Text.ToLower | app/scan/page.tsx:57 | same length; each character is the lower-cased original |
| Text.ToLowerIdempotent | app/scan/page.tsx:57 | lower-casing twice is lower-casing once |
| Text.ToLowerKeepsBlank | app/scan/page.tsx:55-57 | a transcript is blank exactly when its lower-cased form is |
| Text.IndexOf | app/scan/page.tsx:274 | `None` exactly when the character is absent; otherwise the position of its first occurrence |
| PhraseTable.FirstMatch | app/scan/page.tsx:59-91 | the entry found is the first whose phrases the text contains; `None` exactly when no entry matches |
| PhraseTable.FirstMatchIs | app/scan/page.tsx:59-91 | any entry that is first to match is the one the chain of tests selects |
| PhraseTable.MentionDecides | app/page.tsx:40-52 | a text mentioning entry k is decided by entry k or an earlier one |
| ScanPage.BlankIgnored | app/scan/page.tsx:55 | a blank transcript does nothing, whatever the camera state |
| ScanPage.FirstMatchWins | app/scan/page.tsx:59-91 | the first phrase group mentioned by the lower-cased transcript decides the command |
| ScanPage.FallbackRule | app/scan/page.tsx:93-97 | an unmatched non-blank transcript becomes a question, verbatim, exactly when the device camera is on, and does nothing exactly when it is off; a matched one never becomes a question |
| ScanPage.TableCommands | app/scan/page.tsx:59-91 | no phrase group selects a question or no action |
| ScanPage.CaseInsensitive | app/scan/page.tsx:57 | a transcript and its lower-cased form select the same command |
| ScanPage.HomeBeforeCamera | app/scan/page.tsx:59-77 | any transcript saying "go home" navigates home, even one that also names a camera command |
| ScanPage.MockResponseShape | app/scan/page.tsx:182-191 | the offline answer starts with one of the five fixed responses; with a truthy question it contains the question verbatim; without one it is exactly the fixed response |
| ScanPage.SecondField | app/scan/page.tsx:274 | `split(",")[1]`: absent exactly when there is no comma; otherwise exactly the text after the first comma, up to the next comma or the end |
| ScanPage.JpegPayload | app/scan/page.tsx:274-278 | the base64 part of a JPEG data URL is what follows the header's comma |
| ScanPage.ScanSession.constructor | app/scan/page.tsx:28-44 | every flag false, every string empty, no request out |
| ScanPage.ScanSession.Conclude | app/scan/page.tsx:300-332 | the result is shown, spoken with voice feedback on, and toasted; processing ends and the question is cleared |
| ScanPage.ScanSession.BeginAnalysis | app/scan/page.tsx:269-293 | a frame with a base64 part is posted with the question or the default prompt, and processing starts; a frame without one ends at once in the offline answer |
| ScanPage.ScanSession.CompleteAnalysis | app/scan/page.tsx:294-332 | the returned request leaves the in-flight list; its answer, or the offline answer for its question, is concluded |
| ScanPage.ScanSession.CaptureImage | app/scan/page.tsx:234-266 | with the device camera off only the "Camera not active" toast; a frame not ready does nothing; otherwise analysis with the question if truthy |
| ScanPage.ScanSession.CaptureHardwareImage | app/scan/page.tsx:194-231 | with the hardware stream off only its toast; a frame not ready gives "Unable to capture frame"; otherwise analysis |
| ScanPage.ScanSession.StartCamera | app/scan/page.tsx:130-158 | with the video element mounted, a granted camera turns on with toast and vibration, and a refusal gives the error toast |
| ScanPage.ScanSession.StopCamera | app/scan/page.tsx:160-174 | with a stream attached, its tracks stop, the camera is off, and a toast is shown; otherwise nothing |
| ScanPage.ScanSession.StartHardwareCamera | app/scan/page.tsx:101-118 | a blank URL gives only a toast; otherwise the trimmed URL is shown and the device camera is marked off |
| ScanPage.ScanSession.ShowHardware | app/scan/page.tsx:110-117 | the stream URL, the flags and the toast of a successful start, nothing else |
| ScanPage.ScanSession.StopHardwareCamera | app/scan/page.tsx:121-128 | the hardware flag and URL are cleared with a toast |
| ScanPage.ScanSession.EditHardwareUrl | app/scan/page.tsx:444 | only the URL input changes |
| ScanPage.ScanSession.HardwareButton | app/scan/page.tsx:426-432 | stops the hardware stream when it is on, else toggles the URL field |
| ScanPage.ScanSession.CameraButton | app/scan/page.tsx:454-457 | the corrected press (see Findings): disabled while processing; hardware capture, else device capture with no question, so the scene-description prompt, else camera start |
| ScanPage.ScanSession.ProcessTranscript | app/scan/page.tsx:54-98 | the state after `processTranscript` is the step its classification selects |
| ScanPage.ScanSession.Perform | app/scan/page.tsx:59-97 | each command's branch: navigate, toast, camera start or stop, capture, or record the question and capture with it |
| ScanPage.ScanSession.TranscriptEffect | app/scan/page.tsx:47-52 | a non-empty transcript from a finished window this page opened is processed once, and the gate closes; otherwise nothing |
| ScanPage.ScanSession.ToggleListening | app/scan/page.tsx:335-353 | while speaking only stops speech; else while listening only stops listening; else unless processing opens a 5000 ms window, sets the gate and vibrates; while processing and idle changes nothing |
| ScanPage.ConcludedShows | app/scan/page.tsx:315-332 | concluding ends processing, clears the question, shows the result and adds one toast |
| ScanPage.BegunPosts | app/scan/page.tsx:274-292 | a frame with a payload posts that payload with the question's prompt and adds the request to the in-flight list |
| ScanPage.FailedReply | app/scan/page.tsx:315-332 | a failed request shows the offline answer for the question it closed over |
| ScanPage.SpokenQuestionIsAnswered | app/scan/page.tsx:93-97 | a spoken question with the device camera on is posted as the prompt, and a later failure quotes it; or it fails at once and the offline answer quotes it |
| ScanPage.FailedAtOnce | app/scan/page.tsx:274-277 | a data URL without a base64 part ends in the offline answer quoting the question, with processing off |
| ScanPage.AskedThenFailed | app/scan/page.tsx:315-324 | a failed request for a question shows an offline answer containing the question |
| ScanPage.CompletionSettles | app/scan/page.tsx:269-333 | on every outcome processing ends, the question is cleared, exactly that request leaves the in-flight list, and the answer or a fixed offline response is shown; the camera flags are unchanged |
| ScanPage.VoiceNeedsLocalCamera | app/scan/page.tsx:93-97 | with the device camera off no transcript posts a frame, even with the hardware stream on |
| ScanPage.PerformedWithoutCamera | app/scan/page.tsx:59-92 | with the device camera off no command other than a question posts a frame |
| ScanPage.ButtonCaptureAsWritten | app/scan/page.tsx:454 | as written, a press with the device camera on posts "[object Object]" as the prompt, and a failed request quotes it |
| ScanPage.ButtonCaptureCorrected | app/scan/page.tsx:454 | with no question passed, a press posts the scene-description prompt, and a failure gives the plain offline response |
| ScanPage.CaptureGuards | app/scan/page.tsx:194-242 | capturing from a camera that is off adds only its toast and changes nothing else |
| ScanPage.HardwareSwitching | app/scan/page.tsx:101-128 | a blank URL adds only a toast; otherwise the trimmed non-empty URL is shown, the device camera is marked off and the field hidden; stopping clears the flag and the URL |
| ScanPage.HardwareSwitchKeepsLocalTracks | app/scan/page.tsx:101-118 | switching to the hardware stream keeps the invariant and marks the camera off, but its tracks keep running |
| GptPage.SayIffNoCommand | app/gpt/page.tsx:50-76 | a transcript is sent to the assistant, verbatim, exactly when it is not blank and mentions no command phrase |
| GptPage.FirstMatchWins | app/gpt/page.tsx:55-72 | the first phrase group mentioned decides the command |
| GptPage.HomeBeforeEmergency | app/gpt/page.tsx:55-72 | a transcript saying "go home" navigates home even if it also says "emergency" |
| GptPage.ConversationGrows | app/gpt/page.tsx:78-123 | a message in the expected role keeps the greeting-then-alternating shape |
| GptPage.FormattedPosted | app/gpt/page.tsx:90-92 | the posted conversation formats to the greeting as a model turn, every earlier message in order, and the new message last |
| GptPage.ChatRequestCarriesMessage | app/gpt/page.tsx:85-93 | the posted request reaches the model as the system prompt spliced into "Hello", then every earlier message, and the user's words as the message sent |
| GptPage.ChatSession.constructor | app/gpt/page.tsx:25-33 | the conversation is exactly the one greeting; nothing is processing |
| GptPage.ChatSession.HandleUserMessage | app/gpt/page.tsx:78-93 | the message is appended once as a user message, processing starts, and the whole conversation is posted |
| GptPage.ChatSession.CompleteChat | app/gpt/page.tsx:95-122 | exactly one assistant message is appended, the answer or the apology; only an answer is spoken; processing ends |
| GptPage.ChatSession.ProcessTranscript | app/gpt/page.tsx:50-76 | each command navigates or toasts without touching the conversation; any other non-blank transcript becomes the next user message |
| GptPage.ChatSession.TranscriptEffect | app/gpt/page.tsx:43-48 | a finished window's transcript is processed once and the gate closes; a request starts exactly when it is a message |
| GptPage.ChatSession.ToggleListening | app/gpt/page.tsx:125-143 | while speaking only stops speech; else while listening only stops listening; else unless a request is out opens a 5000 ms window for this page and vibrates; the conversation is untouched |
| GptPage.OneExchange | app/gpt/page.tsx:78-123 | a spoken message and its answer add exactly the user's words and the reply, and the page is ready again |
| HomePage.NavigationWords | app/page.tsx:40 | the navigation group is mentioned exactly when "navigation" is |
| HomePage.VideoWords | app/page.tsx:43 | the video analyzer group is mentioned exactly when "scan" or "video" is |
| HomePage.AssistantWords | app/page.tsx:46 | the assistant group is mentioned exactly when "gpt" or "assistant" is |
| HomePage.ScanBeforeAssistant | app/page.tsx:40-52 | a transcript naming the scanner and the assistant, but not navigation, opens the video analyzer |
| HomePage.GetStartedIsLast | app/page.tsx:49-52 | "get started" always leads somewhere; it is the chosen announcement exactly when no feature is named, and then it leads to /gpt |
| HomePage.HomeSession.constructor | app/page.tsx:19-22 | not listening; no actions |
| HomePage.HomeSession.Welcome | app/page.tsx:24-33 | the welcome is spoken exactly when voice feedback is on |
| HomePage.HomeSession.TranscriptEffect | app/page.tsx:35-55 | an empty transcript does nothing; a routed one is announced and opened; every non-empty one is cleared |
| HomePage.HomeSession.ToggleListening | app/page.tsx:57-79 | the page flag flips; stopping toasts; starting speaks the prompt, toasts, vibrates, and opens the default window |
| HomePage.ListeningFlagDrifts | app/page.tsx:57-79 | after a start and the window's timeout the page still believes it is listening while the recognizer is not |
| GeminiService.ToTurn | lib/gemini-service.ts:97-100 | "user" stays "user", every other role becomes "model"; the text is the content |
| GeminiService.FormattedRoles | lib/gemini-service.ts:95-100 | every formatted turn is a user or model turn, never more turns than messages |
| GeminiService.FormattedAppend | lib/gemini-service.ts:95-100 | formatting distributes over concatenation |
| GeminiService.FormattedSingle | lib/gemini-service.ts:95-100 | a single message is dropped if it is a system message and mapped otherwise |
| GeminiService.FormattedWithoutSystem | lib/gemini-service.ts:95-100 | without system messages every message is kept, in order |
| GeminiService.PreparedShape | lib/gemini-service.ts:95-115 | the prepared list is non-empty, starts with a user turn, and has only user and model turns |
| GeminiService.PreparedLength | lib/gemini-service.ts:103-109 | one turn is added exactly when the formatted list is empty or starts with a model turn |
| GeminiService.PreparedPromptOnlyFirst | lib/gemini-service.ts:112-115 | the system prompt changes only the first turn's text, to the prompt, a blank line, "User: " and the original |
| GeminiService.PreparedHistory | lib/gemini-service.ts:118-124 | the history starts with a user turn and holds no system turn |
| GeminiService.PrepareChat | lib/gemini-service.ts:95-124 | the in-place steps give the prepared list; history is all but its last turn; the message is the last turn's text if it is a user turn, else "Hello" |
| GeminiService.ChatWithGemini | lib/gemini-service.ts:78-134 | with no key the apology; otherwise the model's reply to that history and message, or the apology when it throws |
| GeminiService.BuildParts | lib/gemini-service.ts:46-62 | exactly two parts: the JPEG image, then the prompt if truthy, else the default description |
| GeminiService.AnalyzeImage | lib/gemini-service.ts:30-75 | with no key the image apology; otherwise the model's reply to the JPEG part followed by the prompt or the default description, or the apology when it throws |
| GeminiService.GenerateTextResponse | lib/gemini-service.ts:6-27 | with no key or a thrown call the text apology, otherwise the model's reply |
| Http.Read | app/api/analyze-image/route.ts:19-20 | a property read throws on null and undefined, gives an object's own field, and gives undefined otherwise |
| AnalyzeImageRoute.Post | app/api/analyze-image/route.ts:7-42 | 500 without a key; 200 exactly with a key, a parsed body and a truthy image, answering the analysis of image and prompt; 400 is the missing-image error; any other 500 carries the failure error and a message |
| AnalyzeImageRoute.KeyCheckedFirst | app/api/analyze-image/route.ts:10-13 | without a key every body gets the same response |
| AnalyzeImageRoute.EmptyBodyIsBadRequest | app/api/analyze-image/route.ts:19-24 | an empty object body is the 400 about the image |
| AnalyzeImageRoute.NullBodyIsServerError | app/api/analyze-image/route.ts:16-41 | a JSON null body makes the read throw, giving the 500 failure |
| AnalyzeImageRoute.PromptPassedThrough | app/api/analyze-image/route.ts:19-29 | the prompt reaches the analyzer unchanged, present or absent |
| ChatRoute.Post | app/api/chat/route.ts:7-39 | 500 without a key; 200 exactly with a key, a parsed body and an array of messages, answering the chat reply with the fixed system prompt; 400 is the missing-messages error; any other 500 carries the failure error and a message |
| ChatRoute.KeyCheckedFirst | app/api/chat/route.ts:10-13 | without a key every body gets the same response |
| ChatRoute.NonArrayIsBadRequest | app/api/chat/route.ts:17-19 | absent or non-array messages give 400 |
| ChatRoute.ValidRequest | app/api/chat/route.ts:21-28 | an array of messages is answered with the chat reply for exactly those messages and the fixed system prompt |
| SpeechRecognition.JoinedAppend | hooks/use-speech-recognition.tsx:32-38 | joining distributes over concatenation of result lists |
| SpeechRecognition.JoinedAt | hooks/use-speech-recognition.tsx:32-38 | each result's best alternative sits in the transcript right after those before it |
| SpeechRecognition.JoinTranscript | hooks/use-speech-recognition.tsx:33-36 | the loop builds the in-order join of every result's first alternative |
| SpeechRecognition.Recognizer.constructor | hooks/use-speech-recognition.tsx:21-53 | empty transcript, not listening, no timer; the "not supported" error without an engine |
| SpeechRecognition.Recognizer.StartListening | hooks/use-speech-recognition.tsx:65-97 | without an engine only the "not initialized" error; if start throws, transcript reset, no timer, the start error; otherwise transcript reset, listening, error cleared, one timer of the given or default 5000 ms |
| SpeechRecognition.Recognizer.TimerFires | hooks/use-speech-recognition.tsx:82-87 | a pending timer stops listening and is gone |
| SpeechRecognition.Recognizer.StopListening | hooks/use-speech-recognition.tsx:99-108 | afterwards not listening and no timer pending |
| SpeechRecognition.Recognizer.ResetTranscript | hooks/use-speech-recognition.tsx:110-112 | only the transcript is cleared |
| SpeechRecognition.Recognizer.OnResult | hooks/use-speech-recognition.tsx:32-38 | the transcript becomes the join of all results so far |
| SpeechRecognition.Recognizer.OnError | hooks/use-speech-recognition.tsx:40-43 | the error is recorded and listening ends |
| SpeechRecognition.Recognizer.OnEnd | hooks/use-speech-recognition.tsx:45-47 | listening ends |
| SpeechRecognition.StopIsIdempotent | hooks/use-speech-recognition.tsx:99-108 | stopping twice leaves the state one stop leaves: not listening, no timer, transcript and error kept |
| SpeechSynthesis.FindVoice | hooks/use-speech-synthesis.tsx:52-54 | `find`: the first voice that passes the test, or none when no voice does |
| SpeechSynthesis.ChooseVoice | hooks/use-speech-synthesis.tsx:52-58 | the first English "Female" voice, else the first English voice, else none |
| SpeechSynthesis.Synthesizer.constructor | hooks/use-speech-synthesis.tsx:20-38 | not speaking, not paused, nothing queued |
| SpeechSynthesis.Synthesizer.Speak | hooks/use-speech-synthesis.tsx:40-82 | what was queued is cancelled and the one new utterance, in the chosen voice, is queued |
| SpeechSynthesis.Synthesizer.Stop | hooks/use-speech-synthesis.tsx:84-90 | nothing queued, neither speaking nor paused |
| SpeechSynthesis.Synthesizer.Pause | hooks/use-speech-synthesis.tsx:92-97 | the pause flag is set only while speaking |
| SpeechSynthesis.Synthesizer.Resume | hooks/use-speech-synthesis.tsx:99-104 | the pause flag is cleared only while paused |
| SpeechSynthesis.Synthesizer.OnStart | hooks/use-speech-synthesis.tsx:66 | speaking |
| SpeechSynthesis.Synthesizer.OnFinished | hooks/use-speech-synthesis.tsx:67-74 | end or error clears both flags |
| Accessibility.LoadBoolMeaning | components/accessibility-provider.tsx:36-39 | a stored boolean loads as true exactly when its text is "true"; an absent or empty one leaves the current value |
| Accessibility.SaveFrame | components/accessibility-provider.tsx:44-48 | saving writes the five keys and leaves every other key alone |
| Accessibility.SaveLoadRoundTrip | components/accessibility-provider.tsx:29-48 | saving then loading gives back every setting when the font size is not empty |
| Accessibility.EmptyFontSizeNotLoaded | components/accessibility-provider.tsx:35-44 | an empty font size is written but not read back |
| Accessibility.SaveOverwrites | components/accessibility-provider.tsx:43-56 | a later save overwrites an earlier one completely |
| Accessibility.UseAccessibility | components/accessibility-provider.tsx:78-84 | outside a provider the fixed error, inside it the context |
| Accessibility.Provider.Persist | components/accessibility-provider.tsx:43-56 | the store holds the current settings and the document class follows high contrast |
| Accessibility.Provider.constructor | components/accessibility-provider.tsx:20-56 | mounting loads the stored settings over the defaults and writes them back |
| Accessibility.Provider.SetFontSize | components/accessibility-provider.tsx:21-56 | only the font size changes, and the store follows |
| Accessibility.Provider.SetHighContrast | components/accessibility-provider.tsx:22-56 | only high contrast changes; the store and the document class follow |
| Accessibility.Provider.SetVoiceFeedback | components/accessibility-provider.tsx:23-56 | only voice feedback changes, and the store follows |
| Accessibility.Provider.SetHapticFeedback | components/accessibility-provider.tsx:24-56 | only haptic feedback changes, and the store follows |
| Accessibility.Provider.SetGestureControl | components/accessibility-provider.tsx:25-56 | only gesture control changes, and the store follows |
| Emergency.ConfirmingIsOddRun | components/emergency-button.tsx:20-45 | the button awaits confirmation exactly after an odd run of presses since the last cancel |
| Emergency.ActivationIsSecondPress | components/emergency-button.tsx:20-45 | an activating press follows a press that did not itself activate, with no cancel between |
| Emergency.TwoPressesActivate | components/emergency-button.tsx:20-45 | from idle, the first press asks for confirmation and the second activates; a cancel in between starts over |
| Emergency.EmergencyButton.constructor | components/emergency-button.tsx:15-18 | idle, no actions |
| Emergency.EmergencyButton.Click | components/emergency-button.tsx:20-45 | from idle: confirmation prompt and vibration, now confirming; while confirming: the activation announcement, toast and vibration, back to idle |
| Emergency.EmergencyButton.Cancel | components/emergency-button.tsx:66-70 | back to idle with the cancel announcement and no activation |

## Left out

- Rendering: JSX, layout, animation and styling. The scroll effect of the chat page is also left out.
- The disabled state of the microphone buttons is left out. `ToggleListening` is modelled as callable in every state and itself guards on processing.
- The "Start" button that calls `startHardwareCamera` is only rendered while the URL field is shown. The model does not gate `StartHardwareCamera` on that.
- The home page's buttons are left out. They only navigate.
- Canvas drawing, the 0.7 scale factor and JPEG encoding are left out. A captured frame is an input data URL or "not ready".
- `getUserMedia` is left out: its outcome is the `granted` input. The page's streams are one `localStreamLive` flag, so several leaked streams are not told apart.
- `navigator.vibrate` is left out as a capability. A vibration is always recorded.
- `fetch`, `response.json()` and the generative-model SDK are left out. Their outcomes are inputs.
- A missing `analysis` or `response` field in an otherwise successful reply is left out. The page would show `undefined`; the model treats every success as answer text.
- `Math.random` is left out: the offline response index is a parameter.
- `setTimeout` is left out, along with the one-second welcome delay and the order in which React runs effects. Effects are modelled as run against the current state, with no stale closures.
- Speech rate, pitch and volume are left out, as are the platform's `voiceschanged` timing and its utterance queueing. The voice list is fixed.
- `Text.LowerChar`: `toLowerCase` is modelled on ASCII capitals only. Other Unicode case mappings are not modelled.
- `Http.Read`: the exact text of the `TypeError` thrown on reading a property of `null` is a fixed placeholder. Only its presence in the 500 body is modelled.
- `GeminiService.ChatWithGemini`: the messages are typed `{role, content}`. What the formatter does with array items that are not such objects is not modelled.
- `Emergency.EmergencyButton.Click`: the button's own toast description and its variant are not modelled. Only the title is recorded.
- `SpeechRecognition.Recognizer.StartListening`: `start()` throwing while a recognition is already running is the `startThrows` input. Its cause is not modelled.
- Media-track stopping inside `stopCamera` is the `localStreamLive` flag going false.
- ScanPage.ScanSession.CameraButton: the method is the corrected press, with no question. The press as written is stated on the `Pressed` step by `ScanPage.ButtonCaptureAsWritten`, not as a method.
- JSON numbers are integers in `Http.Value`. Fractional numbers are not modelled. Only their truthiness is ever used, and that is `n != 0` either way.

## Findings

| source | as written | input that shows it | evidently intended | confidence | as-written member | corrected member |
|---|---|---|---|---|---|---|
| app/scan/page.tsx:454 | with the device camera on, the main camera button's click handler is `captureImage` itself. The click event becomes the question, and `String(event)` is "[object Object]". That is sent as the analysis prompt and quoted in the offline answer. | a click on the main button while the device camera is on and the hardware stream is off | capture with no question, so the scene-description prompt is sent and the offline answer has no question appended; `ScanPage.ScanSession.CameraButton` models this corrected press | high, not executed | ScanPage.ButtonCaptureAsWritten | ScanPage.ButtonCaptureCorrected |
