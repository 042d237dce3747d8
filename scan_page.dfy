/**
 * The scan page: a camera (the device's own, or a "hardware" stream given by
 * URL), voice commands, and image analysis with an offline fallback.
 *
 * The pure parts are the voice-command classifier, the offline response and
 * the request fields; the page itself is a class over the page's state, its
 * speech hooks, and a log of the toasts, vibrations, route changes and API
 * requests it makes. Camera permission, frame capture, the random index of
 * the offline response and the API's answer are inputs.
 */
module ScanPage {
  import opened Wrappers
  import opened Text
  import opened PhraseTable
  import Effects
  import opened SpeechRecognition
  import opened SpeechSynthesis

  // ------------------------------------------------------------ commands

  datatype Command =
    | GoHome
    | GoToAssistant
    | CameraOn
    | CameraOff
    | TakePicture
    | EmergencyCall
    /** An unmatched transcript while the camera is on: a question about the frame. */
    | AskAboutFrame(question: string)
    /** An unmatched transcript while the camera is off: nothing happens. */
    | NoCommand
    /** A blank transcript: nothing happens. */
    | Blank

  /** The phrase tests of `processTranscript`, in the order they are tried. */
  const Commands: seq<Entry<Command>> := [
    Entry(["go back", "go home"], GoHome),
    Entry(["go to gpt", "go to assistant"], GoToAssistant),
    Entry(["start camera", "open camera"], CameraOn),
    Entry(["stop camera", "close camera"], CameraOff),
    Entry(["take picture", "snap photo", "analyze"], TakePicture),
    Entry(["emergency"], EmergencyCall)
  ]

  /** `processTranscript`'s decision for a transcript, given whether the local camera is on. */
  function Classify(text: string, cameraActive: bool): Command {
    if IsBlank(text) then Blank else Decide(ToLower(text), text, cameraActive)
  }

  /** The phrase tests on the lower-cased `command`, falling back to a question in the words of `text`. */
  function Decide(command: string, text: string, cameraActive: bool): Command {
    match FirstMatch(command, Commands)
    case Some(k) => Commands[k].command
    case None => if cameraActive then AskAboutFrame(text) else NoCommand
  }

  /** A blank transcript does nothing, whatever the camera state. */
  lemma BlankIgnored(text: string, cameraActive: bool)
    requires IsBlank(text)
    ensures Classify(text, cameraActive) == Blank
  {
  }

  /** The first phrase group the lower-cased transcript mentions decides the command. */
  lemma FirstMatchWins(text: string, cameraActive: bool, k: int)
    requires !IsBlank(text) && FirstAt(ToLower(text), Commands, k)
    ensures Classify(text, cameraActive) == Commands[k].command
  {
    FirstMatchIs(ToLower(text), Commands, k);
  }

  /**
   * A transcript that mentions any command phrase is never taken as a
   * question, and an unmatched one is a question exactly when the local
   * camera is on (the hardware camera plays no part), asked verbatim.
   */
  lemma FallbackRule(text: string, cameraActive: bool)
    requires !IsBlank(text)
    ensures Classify(text, cameraActive).AskAboutFrame? <==>
      cameraActive && forall k :: 0 <= k < |Commands| ==> !Mentions(ToLower(text), Commands[k].phrases)
    ensures Classify(text, cameraActive).AskAboutFrame? ==> Classify(text, cameraActive).question == text
    ensures Classify(text, cameraActive) == NoCommand <==>
      !cameraActive && forall k :: 0 <= k < |Commands| ==> !Mentions(ToLower(text), Commands[k].phrases)
  {
    TableCommands();
  }

  /** No entry of the table selects a question or nothing. */
  lemma TableCommands()
    ensures forall k :: 0 <= k < |Commands| ==> !Commands[k].command.AskAboutFrame? && Commands[k].command != NoCommand
  {
  }

  /** Matching ignores case: a transcript and its lower-cased form select the same command. */
  lemma CaseInsensitive(text: string, cameraActive: bool)
    ensures var c := Classify(text, cameraActive);
      Classify(ToLower(text), cameraActive) == if c.AskAboutFrame? then AskAboutFrame(ToLower(text)) else c
  {
    var l := ToLower(text);
    ToLowerIdempotent(text);
    ToLowerKeepsBlank(text);
    if !IsBlank(text) {
      assert Classify(l, cameraActive) == Decide(l, l, cameraActive);
      DecideQuotes(l, text, l, cameraActive);
    }
  }

  /** The transcript's own words matter only to the question it becomes. */
  lemma DecideQuotes(command: string, a: string, b: string, cameraActive: bool)
    ensures var c := Decide(command, a, cameraActive);
      Decide(command, b, cameraActive) == if c.AskAboutFrame? then AskAboutFrame(b) else c
  {
  }

  /** A text containing a phrase with a non-space character is not blank. */
  lemma MentionNotBlank(text: string, phrase: string)
    requires Contains(ToLower(text), phrase) && phrase != [] && !IsSpace(phrase[0])
    ensures !IsBlank(text)
  {
    var l := ToLower(text);
    var i :| 0 <= i <= |l| && phrase <= l[i..];
    assert l[i] == phrase[0];
    ToLowerKeepsBlank(text);
  }

  /**
   * Navigation is tested before anything else: a transcript that says "go
   * home" (in any case) goes home even if it also names a camera command,
   * as in "stop camera and go home".
   */
  lemma HomeBeforeCamera(text: string, cameraActive: bool)
    requires Contains(ToLower(text), "go home")
    ensures Classify(text, cameraActive) == GoHome
  {
    MentionNotBlank(text, "go home");
    assert Commands[0].phrases[1] == "go home";
    assert Mentions(ToLower(text), Commands[0].phrases);
    FirstMatchIs(ToLower(text), Commands, 0);
  }

  // ---------------------------------------------------- offline fallback

  const MockResponses := [
    "I can see what appears to be an indoor space. There are no obvious obstacles in the immediate vicinity.",
    "This looks like an outdoor area. The path ahead seems clear, but proceed with caution.",
    "I can see what might be furniture or objects in the frame. Please be careful when moving forward.",
    "The image shows what appears to be a room with some furniture. There are no immediate hazards visible.",
    "I can see what looks like a pathway. It appears to be clear of obstacles."
  ]

  const QuestionLead := " Regarding your question: \""
  const QuestionTail := "\", I'm currently unable to provide a specific answer as I'm operating in offline mode."

  /** `getMockResponse(question)`, with the random index as a parameter. */
  function MockResponse(question: Option<string>, index: nat): string
    requires index < |MockResponses|
  {
    if Truthy(question) then MockResponses[index] + QuestionLead + question.value + QuestionTail
    else MockResponses[index]
  }

  /** The offline response is always one of the five fixed responses, quoting the question verbatim if one was asked. */
  lemma MockResponseShape(question: Option<string>, index: nat)
    requires index < |MockResponses|
    ensures MockResponses[index] <= MockResponse(question, index)
    ensures Truthy(question) ==> Contains(MockResponse(question, index), question.value)
    ensures !Truthy(question) ==> MockResponse(question, index) == MockResponses[index]
  {
    if Truthy(question) {
      var r := MockResponse(question, index);
      var at := |MockResponses[index] + QuestionLead|;
      assert r == MockResponses[index] + QuestionLead + question.value + QuestionTail;
      assert r[at..at + |question.value|] == question.value;
      ContainsAt(r, question.value, at);
    }
  }

  // ----------------------------------------------------- request fields

  const DescribePrompt := "Describe this scene in detail for a visually impaired person. Focus on any obstacles, people, or important elements."

  /** The `prompt` of the analysis request: the question if there is one, the fixed description request otherwise. */
  function Prompt(question: Option<string>): string {
    if Truthy(question) then question.value else DescribePrompt
  }

  /** `dataUrl.split(",")[1]`: the text between the first and second commas, `None` when there is no comma. */
  function SecondField(dataUrl: string): (r: Option<string>)
    ensures r.None? <==> ',' !in dataUrl
    ensures r.Some? ==> ',' !in r.value
    ensures r.Some? ==>
      exists i :: 0 <= i < |dataUrl| && dataUrl[i] == ',' && ',' !in dataUrl[..i] && r.value <= dataUrl[i + 1..] &&
        (i + 1 + |r.value| == |dataUrl| || dataUrl[i + 1 + |r.value|] == ',')
  {
    match IndexOf(dataUrl, ',')
    case None => None
    case Some(i) =>
      var rest := dataUrl[i + 1..];
      match IndexOf(rest, ',')
      case None => Some(rest)
      case Some(j) => Some(rest[..j])
  }

  /** The base64 part of the frame is present and non-empty, so `processImage` goes on to the request. */
  predicate HasPayload(dataUrl: string) {
    SecondField(dataUrl).Some? && SecondField(dataUrl).value != ""
  }

  const JpegHeader := "data:image/jpeg;base64,"

  /** A JPEG data URL yields its base64 text: the payload sent is exactly the encoded image. */
  lemma JpegPayload(base64: string)
    requires ',' !in base64
    ensures SecondField(JpegHeader + base64) == Some(base64)
  {
    var s := JpegHeader + base64;
    assert ',' !in JpegHeader[..22];
    assert s[22] == ',';
    assert s[..22] == JpegHeader[..22];
    var i := IndexOf(s, ',');
    assert i == Some(22);
    assert s[23..] == base64;
  }

  // ---------------------------------------------------------- the finding

  /** What `String(event)` gives for the click event a button hands its handler. */
  const ClickEventText := "[object Object]"

  /**
   * As written, the main camera button passes `captureImage` itself as the
   * click handler, so the click event arrives as `question` and is turned
   * into a string.
   */
  function ButtonQuestionAsWritten(): Option<string> {
    Some(ClickEventText)
  }

  /** As evidently intended: a button press asks no question. */
  function ButtonQuestion(): Option<string> {
    None
  }

  // ------------------------------------------------------------- session

  /** The camera's frame as drawn to the canvas and encoded: not available, or a data URL. */
  datatype Frame = NotReady | Ready(dataUrl: string)

  /** An analysis request awaiting its response, with the question its handler closed over. */
  datatype Pending = Pending(question: Option<string>)

  /** The page's own state, apart from its hooks and its log of outward actions. */
  datatype Fields = Fields(
    isProcessing: bool,
    cameraActive: bool,
    /** The local camera's media tracks are running. */
    localStreamLive: bool,
    /** The mounted `<video>` element holds the local stream. */
    videoHasStream: bool,
    hardwareActive: bool,
    hardwareUrl: string,
    hardwareUrlInput: string,
    showHardwareInput: bool,
    userQuestion: string,
    analysisResult: string,
    transcriptReady: bool,
    inFlight: seq<Pending>)

  /** The page's invariant: at most one camera source is on, and processing means a request is out. */
  predicate Consistent(s: Fields) {
    && !(s.cameraActive && s.hardwareActive)
    && (s.hardwareActive ==> s.hardwareUrl != "")
    && (s.cameraActive ==> s.videoHasStream)
    && (s.videoHasStream ==> s.localStreamLive && !s.hardwareActive)
    && (s.isProcessing ==> |s.inFlight| > 0)
  }

  const ListenWindow := 5000
  const TapPattern: seq<nat> := [100]
  const OfflineTitle := "Using offline mode"
  const AnalysedTitle := "Analysis complete"
  const CameraNotActiveTitle := "Camera not active"
  const HardwareNotActiveTitle := "Hardware camera not active"
  const NoFrameTitle := "Unable to capture frame"
  const CameraOnTitle := "Camera activated"
  const CameraErrorTitle := "Camera Error"
  const CameraOffTitle := "Camera stopped"
  const NoUrlTitle := "No URL Provided"
  const HardwareOnTitle := "Hardware Camera Activated"
  const HardwareOffTitle := "Hardware Camera Stopped"
  const EmergencyTitle := "Emergency Contact"

  /** What can be observed of the page: its state, its outward actions so far, and its speech queue. */
  datatype Observed = Observed(page: Fields, effects: seq<Effects.Effect>, speech: seq<Utterance>)

  /** The effects added after `before`'s. */
  function Added(before: Observed, after: Observed): seq<Effects.Effect>
    requires before.effects <= after.effects
  {
    after.effects[|before.effects|..]
  }

  class ScanSession {
    const rec: Recognizer
    const synth: Synthesizer
    /** The accessibility setting read when the page renders. */
    const voiceFeedback: bool

    var isProcessing: bool
    var cameraActive: bool
    var localStreamLive: bool
    var videoHasStream: bool
    var hardwareActive: bool
    var hardwareUrl: string
    var hardwareUrlInput: string
    var showHardwareInput: bool
    var userQuestion: string
    var analysisResult: string
    var transcriptReady: bool
    var inFlight: seq<Pending>
    var effects: seq<Effects.Effect>

    function State(): Fields
      reads this
    {
      Fields(isProcessing, cameraActive, localStreamLive, videoHasStream, hardwareActive, hardwareUrl,
             hardwareUrlInput, showHardwareInput, userQuestion, analysisResult, transcriptReady, inFlight)
    }

    function Now(): Observed
      reads this, synth
    {
      Observed(State(), effects, synth.queue)
    }

    ghost predicate Valid()
      reads this, rec, synth
    {
      rec.Valid() && synth.Valid() && Consistent(State())
    }

    /** The local `<video>` element is rendered: it is not while the hardware stream is shown. */
    predicate VideoMounted()
      reads this
    {
      !(hardwareActive && hardwareUrl != "")
    }

    constructor (hasEngine: bool, speechAvailable: bool, voices: seq<Voice>, voiceFeedback: bool)
      ensures Valid() && fresh(rec) && fresh(synth)
      ensures State() == Fields(false, false, false, false, false, "", "", false, "", "", false, [])
      ensures effects == [] && this.voiceFeedback == voiceFeedback
    {
      rec := new Recognizer(hasEngine);
      synth := new Synthesizer(speechAvailable, voices);
      this.voiceFeedback := voiceFeedback;
      isProcessing, cameraActive, localStreamLive, videoHasStream := false, false, false, false;
      hardwareActive, hardwareUrl, hardwareUrlInput, showHardwareInput := false, "", "", false;
      userQuestion, analysisResult, transcriptReady, inFlight := "", "", false, [];
      effects := [];
    }

    // The page's steps on observed states. Each method below is proved to
    // take `Now()` to the step's result.

    /** `speak(text)` when voice feedback is on. */
    function Voiced(o: Observed, text: string): Observed {
      if voiceFeedback then o.(speech := synth.AfterSpeak(o.speech, text)) else o
    }

    /** The end of `processImage`: its result shown and spoken, a toast, and the `finally` clean-up. */
    function Concluded(o: Observed, result: string, title: string): Observed {
      Voiced(Observed(o.page.(isProcessing := false, userQuestion := "", analysisResult := result),
                      o.effects + [Effects.Toast(title)], o.speech), result)
    }

    /** The synchronous part of `processImage`: the request is posted, or the frame fails at once into the offline response. */
    function Begun(o: Observed, dataUrl: string, question: Option<string>, mockIndex: nat): Observed
      requires mockIndex < |MockResponses|
    {
      if HasPayload(dataUrl) then
        Observed(o.page.(isProcessing := true, inFlight := o.page.inFlight + [Pending(question)]),
                 o.effects + [Effects.PostAnalyzeImage(SecondField(dataUrl).value, Prompt(question))], o.speech)
      else Concluded(o, MockResponse(question, mockIndex), OfflineTitle)
    }

    /** Request `k` comes back with `outcome`. */
    function Completed(o: Observed, k: nat, outcome: Effects.Outcome, mockIndex: nat): Observed
      requires k < |o.page.inFlight| && mockIndex < |MockResponses|
    {
      var rest := o.page.(inFlight := o.page.inFlight[..k] + o.page.inFlight[k + 1..]);
      match outcome
      case Answered(text) => Concluded(o.(page := rest), text, AnalysedTitle)
      case Failed => Concluded(o.(page := rest), MockResponse(o.page.inFlight[k].question, mockIndex), OfflineTitle)
    }

    /** `captureImage(question)`. */
    function Captured(o: Observed, question: Option<string>, frame: Frame, mockIndex: nat): Observed
      requires mockIndex < |MockResponses|
    {
      if !o.page.cameraActive then o.(effects := o.effects + [Effects.Toast(CameraNotActiveTitle)])
      else match frame
        case NotReady => o
        case Ready(dataUrl) => Begun(o, dataUrl, if Truthy(question) then question else None, mockIndex)
    }

    /** `captureHardwareImage(question)`. */
    function HardwareCaptured(o: Observed, question: Option<string>, frame: Frame, mockIndex: nat): Observed
      requires mockIndex < |MockResponses|
    {
      if !o.page.hardwareActive then o.(effects := o.effects + [Effects.Toast(HardwareNotActiveTitle)])
      else match frame
        case NotReady => o.(effects := o.effects + [Effects.Toast(NoFrameTitle)])
        case Ready(dataUrl) => Begun(o, dataUrl, question, mockIndex)
    }

    /** `startCamera`, with `granted` the outcome of the permission request. */
    function CameraStarted(o: Observed, granted: bool): Observed {
      if o.page.hardwareActive then o
      else if granted then
        Observed(o.page.(cameraActive := true, videoHasStream := true, localStreamLive := true),
                 o.effects + [Effects.Toast(CameraOnTitle), Effects.Vibrate(TapPattern)], o.speech)
      else o.(effects := o.effects + [Effects.Toast(CameraErrorTitle)])
    }

    /** `stopCamera`. */
    function CameraStopped(o: Observed): Observed {
      if o.page.hardwareActive || !o.page.videoHasStream then o
      else Observed(o.page.(cameraActive := false, videoHasStream := false, localStreamLive := false),
                    o.effects + [Effects.Toast(CameraOffTitle)], o.speech)
    }

    /** `startHardwareCamera`. */
    function HardwareStarted(o: Observed): Observed {
      if IsBlank(o.page.hardwareUrlInput) then o.(effects := o.effects + [Effects.Toast(NoUrlTitle)])
      else Observed(o.page.(hardwareUrl := Trim(o.page.hardwareUrlInput), hardwareActive := true, cameraActive := false,
                            videoHasStream := false, showHardwareInput := false),
                    o.effects + [Effects.Toast(HardwareOnTitle)], o.speech)
    }

    /** `stopHardwareCamera`. */
    function HardwareStopped(o: Observed): Observed {
      Observed(o.page.(hardwareActive := false, hardwareUrl := ""), o.effects + [Effects.Toast(HardwareOffTitle)], o.speech)
    }

    /** `processTranscript(text)`. */
    function Dispatched(o: Observed, text: string, granted: bool, frame: Frame, mockIndex: nat): Observed
      requires mockIndex < |MockResponses|
    {
      Performed(o, Classify(text, o.page.cameraActive), granted, frame, mockIndex)
    }

    /** The branch of `processTranscript` that carries out `command`. */
    function Performed(o: Observed, command: Command, granted: bool, frame: Frame, mockIndex: nat): Observed
      requires mockIndex < |MockResponses|
    {
      match command
      case Blank => o
      case NoCommand => o
      case GoHome => o.(effects := o.effects + [Effects.Navigate("/")])
      case GoToAssistant => o.(effects := o.effects + [Effects.Navigate("/gpt")])
      case EmergencyCall => o.(effects := o.effects + [Effects.Toast(EmergencyTitle)])
      case CameraOn => CameraStarted(o, granted)
      case CameraOff => CameraStopped(o)
      case TakePicture => Captured(o, None, frame, mockIndex)
      case AskAboutFrame(q) => Captured(o.(page := o.page.(userQuestion := q)), Some(q), frame, mockIndex)
    }

    /** The main camera button with the question it passes to `captureImage`: disabled while processing. */
    function Pressed(o: Observed, question: Option<string>, granted: bool, frame: Frame, mockIndex: nat): Observed
      requires mockIndex < |MockResponses|
    {
      if o.page.isProcessing then o
      else if o.page.hardwareActive then HardwareCaptured(o, None, frame, mockIndex)
      else if o.page.cameraActive then Captured(o, question, frame, mockIndex)
      else CameraStarted(o, granted)
    }

    // ------------------------------------------------------------ methods

    method Conclude(result: string, title: string)
      requires Valid()
      modifies this`analysisResult, this`effects, this`isProcessing, this`userQuestion, synth`queue
      ensures Valid() && Now() == Concluded(old(Now()), result, title)
    {
      analysisResult := result;
      if voiceFeedback {
        synth.Speak(result);
      }
      effects := effects + [Effects.Toast(title)];
      isProcessing := false;
      userQuestion := "";
    }

    /** `processImage` up to its request: a frame without a base64 part fails at once. */
    method BeginAnalysis(dataUrl: string, question: Option<string>, mockIndex: nat)
      requires Valid() && mockIndex < |MockResponses|
      modifies this`analysisResult, this`effects, this`isProcessing, this`userQuestion, this`inFlight, synth`queue
      ensures Valid() && Now() == Begun(old(Now()), dataUrl, question, mockIndex)
    {
      var data := SecondField(dataUrl);
      if data.None? || data.value == "" {
        Conclude(MockResponse(question, mockIndex), OfflineTitle);
        return;
      }
      inFlight := inFlight + [Pending(question)];
      isProcessing := true;
      effects := effects + [Effects.PostAnalyzeImage(data.value, Prompt(question))];
    }

    /** The rest of `processImage` once request `k` comes back. */
    method CompleteAnalysis(k: nat, outcome: Effects.Outcome, mockIndex: nat)
      requires Valid() && k < |inFlight| && mockIndex < |MockResponses|
      modifies this`analysisResult, this`effects, this`isProcessing, this`userQuestion, this`inFlight, synth`queue
      ensures Valid() && Now() == Completed(old(Now()), k, outcome, mockIndex)
    {
      var question := inFlight[k].question;
      isProcessing := false;
      inFlight := inFlight[..k] + inFlight[k + 1..];
      match outcome
      case Answered(text) => Conclude(text, AnalysedTitle);
      case Failed => Conclude(MockResponse(question, mockIndex), OfflineTitle);
    }

    method CaptureImage(question: Option<string>, frame: Frame, mockIndex: nat)
      requires Valid() && mockIndex < |MockResponses|
      modifies this`analysisResult, this`effects, this`isProcessing, this`userQuestion, this`inFlight, synth`queue
      ensures Valid() && Now() == Captured(old(Now()), question, frame, mockIndex)
    {
      if !VideoMounted() || !cameraActive {
        effects := effects + [Effects.Toast(CameraNotActiveTitle)];
        return;
      }
      match frame
      case NotReady =>
      case Ready(dataUrl) =>
        var questionText := if Truthy(question) then question else None;
        BeginAnalysis(dataUrl, questionText, mockIndex);
    }

    method CaptureHardwareImage(question: Option<string>, frame: Frame, mockIndex: nat)
      requires Valid() && mockIndex < |MockResponses|
      modifies this`analysisResult, this`effects, this`isProcessing, this`userQuestion, this`inFlight, synth`queue
      ensures Valid() && Now() == HardwareCaptured(old(Now()), question, frame, mockIndex)
    {
      if !hardwareActive {
        effects := effects + [Effects.Toast(HardwareNotActiveTitle)];
        return;
      }
      match frame
      case NotReady =>
        effects := effects + [Effects.Toast(NoFrameTitle)];
      case Ready(dataUrl) =>
        BeginAnalysis(dataUrl, question, mockIndex);
    }

    method StartCamera(granted: bool)
      requires Valid()
      modifies this`cameraActive, this`videoHasStream, this`localStreamLive, this`effects
      ensures Valid() && Now() == CameraStarted(old(Now()), granted)
    {
      if !VideoMounted() {
        return;
      }
      if granted {
        localStreamLive := true;
        videoHasStream := true;
        cameraActive := true;
        effects := effects + [Effects.Toast(CameraOnTitle), Effects.Vibrate(TapPattern)];
      } else {
        effects := effects + [Effects.Toast(CameraErrorTitle)];
      }
    }

    method StopCamera()
      requires Valid()
      modifies this`cameraActive, this`videoHasStream, this`localStreamLive, this`effects
      ensures Valid() && Now() == CameraStopped(old(Now()))
    {
      if !VideoMounted() || !videoHasStream {
        return;
      }
      localStreamLive := false;
      videoHasStream := false;
      cameraActive := false;
      effects := effects + [Effects.Toast(CameraOffTitle)];
    }

    method StartHardwareCamera()
      requires Valid()
      modifies this`hardwareUrl, this`hardwareActive, this`cameraActive, this`videoHasStream, this`showHardwareInput, this`effects
      ensures Valid() && Now() == HardwareStarted(old(Now()))
    {
      if IsBlank(hardwareUrlInput) {
        effects := effects + [Effects.Toast(NoUrlTitle)];
      } else {
        ShowHardware(Trim(hardwareUrlInput));
      }
    }

    /** The second half of `startHardwareCamera`: the stream at `url` replaces the local camera. */
    method ShowHardware(url: string)
      requires Valid() && url != ""
      modifies this`hardwareUrl, this`hardwareActive, this`cameraActive, this`videoHasStream, this`showHardwareInput, this`effects
      ensures Valid()
      ensures Now() == Observed(old(State()).(hardwareUrl := url, hardwareActive := true, cameraActive := false,
                                              videoHasStream := false, showHardwareInput := false),
                                old(effects) + [Effects.Toast(HardwareOnTitle)], old(synth.queue))
    {
      hardwareUrl, hardwareActive, cameraActive, videoHasStream, showHardwareInput := url, true, false, false, false;
      effects := effects + [Effects.Toast(HardwareOnTitle)];
    }

    method StopHardwareCamera()
      requires Valid()
      modifies this`hardwareUrl, this`hardwareActive, this`effects
      ensures Valid() && Now() == HardwareStopped(old(Now()))
    {
      hardwareActive := false;
      hardwareUrl := "";
      effects := effects + [Effects.Toast(HardwareOffTitle)];
    }

    /** Typing in the URL field. */
    method EditHardwareUrl(input: string)
      requires Valid()
      modifies this`hardwareUrlInput
      ensures Valid() && Now() == old(Now()).(page := old(State()).(hardwareUrlInput := input))
    {
      hardwareUrlInput := input;
    }

    /** The "Hardware" button: stops the hardware stream if it is on, else shows or hides the URL field. */
    method HardwareButton()
      requires Valid()
      modifies this`hardwareUrl, this`hardwareActive, this`showHardwareInput, this`effects
      ensures Valid()
      ensures Now() == if old(hardwareActive) then HardwareStopped(old(Now()))
                       else old(Now()).(page := old(State()).(showHardwareInput := !old(showHardwareInput)))
    {
      if hardwareActive {
        StopHardwareCamera();
      } else {
        showHardwareInput := !showHardwareInput;
      }
    }

    /**
     * The main camera button: captures from the hardware stream when it is
     * on, else from the local camera when that is on, else starts the local
     * camera. A press asks no question.
     */
    method CameraButton(granted: bool, frame: Frame, mockIndex: nat)
      requires Valid() && mockIndex < |MockResponses|
      modifies this`analysisResult, this`effects, this`isProcessing, this`userQuestion, this`inFlight, synth`queue,
               this`cameraActive, this`videoHasStream, this`localStreamLive
      ensures Valid() && Now() == Pressed(old(Now()), ButtonQuestion(), granted, frame, mockIndex)
    {
      if isProcessing {
        return;
      }
      if hardwareActive {
        CaptureHardwareImage(None, frame, mockIndex);
      } else if cameraActive {
        CaptureImage(ButtonQuestion(), frame, mockIndex);
      } else {
        StartCamera(granted);
      }
    }

    /**
     * `processTranscript(text)`; `granted`, `frame` and `mockIndex` are the
     * outcomes of the camera request, frame capture and random choice it
     * may need.
     */
    method ProcessTranscript(text: string, granted: bool, frame: Frame, mockIndex: nat)
      requires Valid() && mockIndex < |MockResponses|
      modifies this`analysisResult, this`effects, this`isProcessing, this`userQuestion, this`inFlight, synth`queue,
               this`cameraActive, this`videoHasStream, this`localStreamLive
      ensures Valid() && Now() == Dispatched(old(Now()), text, granted, frame, mockIndex)
    {
      Perform(Classify(text, cameraActive), granted, frame, mockIndex);
    }

    /** Carries out one command of `processTranscript`. */
    method Perform(command: Command, granted: bool, frame: Frame, mockIndex: nat)
      requires Valid() && mockIndex < |MockResponses|
      modifies this`analysisResult, this`effects, this`isProcessing, this`userQuestion, this`inFlight, synth`queue,
               this`cameraActive, this`videoHasStream, this`localStreamLive
      ensures Valid() && Now() == Performed(old(Now()), command, granted, frame, mockIndex)
    {
      match command
      case Blank =>
      case NoCommand =>
      case GoHome => effects := effects + [Effects.Navigate("/")];
      case GoToAssistant => effects := effects + [Effects.Navigate("/gpt")];
      case EmergencyCall => effects := effects + [Effects.Toast(EmergencyTitle)];
      case CameraOn => StartCamera(granted);
      case CameraOff => StopCamera();
      case TakePicture => CaptureImage(None, frame, mockIndex);
      case AskAboutFrame(q) =>
        userQuestion := q;
        CaptureImage(Some(q), frame, mockIndex);
    }

    /**
     * The transcript effect: once listening has stopped with a non-empty
     * transcript from a window this page opened, the transcript is
     * processed, once.
     */
    method TranscriptEffect(granted: bool, frame: Frame, mockIndex: nat)
      requires Valid() && mockIndex < |MockResponses|
      modifies this`analysisResult, this`effects, this`isProcessing, this`userQuestion, this`inFlight, synth`queue,
               this`cameraActive, this`videoHasStream, this`localStreamLive, this`transcriptReady
      ensures Valid()
      ensures Now() == if old(!rec.isListening && rec.transcript != "" && transcriptReady)
        then Dispatched(old(Now()).(page := old(State()).(transcriptReady := false)), rec.transcript, granted, frame, mockIndex)
        else old(Now())
    {
      if !rec.isListening && rec.transcript != "" && transcriptReady {
        transcriptReady := false;
        ProcessTranscript(rec.transcript, granted, frame, mockIndex);
      }
    }

    /**
     * `toggleListening`: while speaking it only stops the speech; else
     * while listening it only stops listening; else, unless processing, it
     * opens a five-second listening window for this page.
     */
    method ToggleListening(startThrows: bool)
      requires Valid()
      modifies this`transcriptReady, this`effects, rec, synth
      ensures Valid()
      ensures old(synth.isSpeaking) ==>
        && !synth.isSpeaking && !synth.isPaused && synth.queue == []
        && unchanged(rec) && State() == old(State()) && effects == old(effects)
      ensures !old(synth.isSpeaking) && old(rec.isListening) ==>
        && !rec.isListening && !rec.timerPending
        && rec.transcript == old(rec.transcript) && rec.error == old(rec.error)
        && unchanged(synth) && State() == old(State()) && effects == old(effects)
      ensures !old(synth.isSpeaking) && !old(rec.isListening) && !old(isProcessing) ==>
        && State() == old(State()).(transcriptReady := true)
        && effects == old(effects) + [Effects.Vibrate(TapPattern)]
        && unchanged(synth)
        && rec.isListening == (rec.hasEngine && !startThrows)
        && (rec.isListening ==> rec.timerPending && rec.timerDuration == ListenWindow && rec.transcript == "")
      ensures !old(synth.isSpeaking) && !old(rec.isListening) && old(isProcessing) ==>
        unchanged(this) && unchanged(rec) && unchanged(synth)
    {
      if synth.isSpeaking {
        synth.Stop();
        return;
      }
      if rec.isListening {
        rec.StopListening();
      } else if !isProcessing {
        rec.StartListening(Some(ListenWindow), startThrows);
        transcriptReady := true;
        effects := effects + [Effects.Vibrate(TapPattern)];
      }
    }
  }

  // ------------------------------------------------- properties of steps

  /** The offline end of a request: processing ends, the question is cleared, and `result` is shown. */
  lemma ConcludedShows(page: ScanSession, o: Observed, result: string, title: string)
    ensures var after := page.Concluded(o, result, title);
      && after.page == o.page.(isProcessing := false, userQuestion := "", analysisResult := result)
      && after.effects == o.effects + [Effects.Toast(title)]
  {
  }

  /** A frame with a payload is posted with the question's prompt, and the request joins the in-flight list. */
  lemma BegunPosts(page: ScanSession, o: Observed, dataUrl: string, question: Option<string>, mockIndex: nat)
    requires mockIndex < |MockResponses| && HasPayload(dataUrl)
    ensures var after := page.Begun(o, dataUrl, question, mockIndex);
      && after.effects == o.effects + [Effects.PostAnalyzeImage(SecondField(dataUrl).value, Prompt(question))]
      && after.page.inFlight == o.page.inFlight + [Pending(question)]
      && after.page.isProcessing
  {
  }

  /** A failed request `k` shows the offline response for the question it closed over. */
  lemma FailedReply(page: ScanSession, o: Observed, k: nat, mockIndex: nat)
    requires k < |o.page.inFlight| && mockIndex < |MockResponses|
    ensures page.Completed(o, k, Effects.Failed, mockIndex).page.analysisResult
      == MockResponse(o.page.inFlight[k].question, mockIndex)
  {
    var rest := o.page.(inFlight := o.page.inFlight[..k] + o.page.inFlight[k + 1..]);
    ConcludedShows(page, o.(page := rest), MockResponse(o.page.inFlight[k].question, mockIndex), OfflineTitle);
  }

  /**
   * A spoken question with the local camera on is always answered about
   * that question: either the frame is posted with the question as its
   * prompt, and should the request fail the offline answer quotes the
   * question, or the frame fails at once and the offline answer quotes it.
   */
  lemma SpokenQuestionIsAnswered(page: ScanSession, o: Observed, text: string, granted: bool,
                                 dataUrl: string, mockIndex: nat, laterIndex: nat)
    requires mockIndex < |MockResponses| && laterIndex < |MockResponses|
    requires Classify(text, o.page.cameraActive) == AskAboutFrame(text)
    ensures var after := page.Dispatched(o, text, granted, Ready(dataUrl), mockIndex);
      if HasPayload(dataUrl) then
        && after.effects == o.effects + [Effects.PostAnalyzeImage(SecondField(dataUrl).value, text)]
        && after.page.isProcessing && after.page.userQuestion == text
        && |after.page.inFlight| == |o.page.inFlight| + 1
        && Contains(page.Completed(after, |o.page.inFlight|, Effects.Failed, laterIndex).page.analysisResult, text)
      else
        && after.effects == o.effects + [Effects.Toast(OfflineTitle)]
        && !after.page.isProcessing && after.page.userQuestion == ""
        && Contains(after.page.analysisResult, text)
  {
    var asked := o.(page := o.page.(userQuestion := text));
    AskedDispatch(page, o, text, granted, dataUrl, mockIndex);
    var after := page.Begun(asked, dataUrl, Some(text), mockIndex);
    if HasPayload(dataUrl) {
      BegunPosts(page, asked, dataUrl, Some(text), mockIndex);
      AskedThenFailed(page, after, o.page.inFlight, text, laterIndex);
    } else {
      FailedAtOnce(page, asked, dataUrl, text, mockIndex);
    }
  }

  /** A question with a frame goes to the analysis with the question recorded. */
  lemma AskedDispatch(page: ScanSession, o: Observed, text: string, granted: bool, dataUrl: string, mockIndex: nat)
    requires mockIndex < |MockResponses|
    requires Classify(text, o.page.cameraActive) == AskAboutFrame(text)
    ensures text != ""
    ensures page.Dispatched(o, text, granted, Ready(dataUrl), mockIndex)
      == page.Begun(o.(page := o.page.(userQuestion := text)), dataUrl, Some(text), mockIndex)
  {
    assert !IsBlank(text);
    assert page.Dispatched(o, text, granted, Ready(dataUrl), mockIndex)
      == page.Performed(o, AskAboutFrame(text), granted, Ready(dataUrl), mockIndex);
  }

  /** A frame without a payload is answered offline at once, quoting the question. */
  lemma FailedAtOnce(page: ScanSession, o: Observed, dataUrl: string, text: string, mockIndex: nat)
    requires mockIndex < |MockResponses| && text != "" && !HasPayload(dataUrl)
    ensures var after := page.Begun(o, dataUrl, Some(text), mockIndex);
      && after.effects == o.effects + [Effects.Toast(OfflineTitle)]
      && !after.page.isProcessing && after.page.userQuestion == ""
      && Contains(after.page.analysisResult, text)
  {
    MockResponseShape(Some(text), mockIndex);
    ConcludedShows(page, o, MockResponse(Some(text), mockIndex), OfflineTitle);
  }

  /** A failed request for a question is answered offline quoting the question. */
  lemma AskedThenFailed(page: ScanSession, o: Observed, earlier: seq<Pending>, text: string, mockIndex: nat)
    requires mockIndex < |MockResponses| && text != ""
    requires o.page.inFlight == earlier + [Pending(Some(text))]
    ensures Contains(page.Completed(o, |earlier|, Effects.Failed, mockIndex).page.analysisResult, text)
  {
    assert o.page.inFlight[|earlier|].question == Some(text);
    FailedReply(page, o, |earlier|, mockIndex);
    MockResponseShape(Some(text), mockIndex);
  }

  /** Taking out element `k` leaves the rest of the elements. */
  lemma RemoveAt<T>(f: seq<T>, k: nat)
    requires k < |f|
    ensures multiset(f[..k] + f[k + 1..]) + multiset{f[k]} == multiset(f)
  {
    assert f == f[..k] + [f[k]] + f[k + 1..];
  }

  /**
   * When request `k` comes back, processing ends and the question is
   * cleared; request `k`, and only it, leaves the in-flight list; and the
   * result shown is the analysis, or after a failure one of the fixed
   * offline responses.
   */
  lemma CompletionSettles(page: ScanSession, o: Observed, k: nat, outcome: Effects.Outcome, mockIndex: nat)
    requires k < |o.page.inFlight| && mockIndex < |MockResponses|
    ensures var after := page.Completed(o, k, outcome, mockIndex);
      && !after.page.isProcessing && after.page.userQuestion == ""
      && multiset(after.page.inFlight) + multiset{o.page.inFlight[k]} == multiset(o.page.inFlight)
      && (outcome.Answered? ==> after.page.analysisResult == outcome.text)
      && (outcome.Failed? ==> MockResponses[mockIndex] <= after.page.analysisResult)
      && after.page.cameraActive == o.page.cameraActive && after.page.hardwareActive == o.page.hardwareActive
  {
    var f := o.page.inFlight;
    var rest := o.page.(inFlight := f[..k] + f[k + 1..]);
    RemoveAt(f, k);
    match outcome
    case Answered(text) =>
      ConcludedShows(page, o.(page := rest), text, AnalysedTitle);
    case Failed =>
      MockResponseShape(f[k].question, mockIndex);
      ConcludedShows(page, o.(page := rest), MockResponse(f[k].question, mockIndex), OfflineTitle);
  }

  /**
   * Voice commands only ever analyse the local camera: with it off, no
   * transcript posts a frame, even while the hardware stream is on.
   */
  lemma VoiceNeedsLocalCamera(page: ScanSession, o: Observed, text: string, granted: bool, frame: Frame, mockIndex: nat)
    requires mockIndex < |MockResponses| && !o.page.cameraActive
    ensures var after := page.Dispatched(o, text, granted, frame, mockIndex);
      o.effects <= after.effects && forall e :: e in Added(o, after) ==> !e.PostAnalyzeImage?
  {
    var command := Classify(text, o.page.cameraActive);
    assert !command.AskAboutFrame?;
    PerformedWithoutCamera(page, o, command, granted, frame, mockIndex);
  }

  /** With the local camera off, no command but a question could post a frame. */
  lemma PerformedWithoutCamera(page: ScanSession, o: Observed, command: Command, granted: bool, frame: Frame, mockIndex: nat)
    requires mockIndex < |MockResponses| && !o.page.cameraActive && !command.AskAboutFrame?
    ensures var after := page.Performed(o, command, granted, frame, mockIndex);
      o.effects <= after.effects && forall e :: e in Added(o, after) ==> !e.PostAnalyzeImage?
  {
  }

  /**
   * As written, pressing the camera button with the local camera on posts
   * "[object Object]" as the prompt, and a failed request quotes it back.
   */
  lemma ButtonCaptureAsWritten(page: ScanSession, o: Observed, granted: bool, base64: string, mockIndex: nat)
    requires mockIndex < |MockResponses|
    requires !o.page.isProcessing && !o.page.hardwareActive && o.page.cameraActive
    requires base64 != "" && ',' !in base64
    ensures var after := page.Pressed(o, ButtonQuestionAsWritten(), granted, Ready(JpegHeader + base64), mockIndex);
      && after.effects == o.effects + [Effects.PostAnalyzeImage(base64, ClickEventText)]
      && |after.page.inFlight| == |o.page.inFlight| + 1
      && Contains(page.Completed(after, |o.page.inFlight|, Effects.Failed, mockIndex).page.analysisResult, ClickEventText)
  {
    JpegPayload(base64);
    var after := page.Begun(o, JpegHeader + base64, Some(ClickEventText), mockIndex);
    assert page.Pressed(o, ButtonQuestionAsWritten(), granted, Ready(JpegHeader + base64), mockIndex)
      == page.Captured(o, Some(ClickEventText), Ready(JpegHeader + base64), mockIndex) == after;
    BegunPosts(page, o, JpegHeader + base64, Some(ClickEventText), mockIndex);
    AskedThenFailed(page, after, o.page.inFlight, ClickEventText, mockIndex);
  }

  /**
   * Corrected, pressing the camera button with the local camera on asks for
   * the scene description, and a failed request gets a plain offline answer.
   */
  lemma ButtonCaptureCorrected(page: ScanSession, o: Observed, granted: bool, base64: string, mockIndex: nat)
    requires mockIndex < |MockResponses|
    requires !o.page.isProcessing && !o.page.hardwareActive && o.page.cameraActive
    requires base64 != "" && ',' !in base64
    ensures var after := page.Pressed(o, ButtonQuestion(), granted, Ready(JpegHeader + base64), mockIndex);
      && after.effects == o.effects + [Effects.PostAnalyzeImage(base64, DescribePrompt)]
      && |after.page.inFlight| == |o.page.inFlight| + 1
      && page.Completed(after, |o.page.inFlight|, Effects.Failed, mockIndex).page.analysisResult == MockResponses[mockIndex]
  {
    JpegPayload(base64);
    var after := page.Begun(o, JpegHeader + base64, None, mockIndex);
    assert page.Pressed(o, ButtonQuestion(), granted, Ready(JpegHeader + base64), mockIndex)
      == page.Captured(o, None, Ready(JpegHeader + base64), mockIndex) == after;
    BegunPosts(page, o, JpegHeader + base64, None, mockIndex);
    assert after.page.inFlight[|o.page.inFlight|] == Pending(None);
    FailedReply(page, after, |o.page.inFlight|, mockIndex);
  }

  /**
   * A capture from a camera that is off only shows its "not active" toast:
   * the page state and the speech are untouched and nothing is posted.
   */
  lemma CaptureGuards(page: ScanSession, o: Observed, question: Option<string>, frame: Frame, mockIndex: nat)
    requires mockIndex < |MockResponses|
    ensures !o.page.cameraActive ==>
      page.Captured(o, question, frame, mockIndex) == o.(effects := o.effects + [Effects.Toast(CameraNotActiveTitle)])
    ensures !o.page.hardwareActive ==>
      page.HardwareCaptured(o, question, frame, mockIndex) == o.(effects := o.effects + [Effects.Toast(HardwareNotActiveTitle)])
  {
  }

  /**
   * Starting the hardware stream with a blank URL only shows a toast;
   * otherwise the stream shows the trimmed URL and the local camera is
   * marked off. Stopping it clears both the URL and the flag.
   */
  lemma HardwareSwitching(page: ScanSession, o: Observed)
    ensures IsBlank(o.page.hardwareUrlInput) ==>
      page.HardwareStarted(o) == o.(effects := o.effects + [Effects.Toast(NoUrlTitle)])
    ensures !IsBlank(o.page.hardwareUrlInput) ==>
      var after := page.HardwareStarted(o).page;
      && after.hardwareUrl == Trim(o.page.hardwareUrlInput) && after.hardwareUrl != ""
      && after.hardwareActive && !after.cameraActive && !after.showHardwareInput
    ensures !page.HardwareStopped(o).page.hardwareActive && page.HardwareStopped(o).page.hardwareUrl == ""
  {
  }

  /**
   * Switching to the hardware stream while the local camera is on turns the
   * local camera off as far as the page is concerned, but its media tracks
   * keep running.
   */
  lemma HardwareSwitchKeepsLocalTracks(page: ScanSession, o: Observed)
    requires Consistent(o.page) && o.page.cameraActive && !IsBlank(o.page.hardwareUrlInput)
    ensures var after := page.HardwareStarted(o);
      Consistent(after.page) && after.page.hardwareActive && !after.page.cameraActive && after.page.localStreamLive
  {
  }
}
