/**
 * The voice assistant page: spoken navigation commands, and otherwise a
 * chat with the assistant through `/api/chat`, one request at a time.
 *
 * The conversation is a class field; the page's toasts, route changes,
 * vibrations and chat requests are recorded in `effects`, and the answer
 * to a request arrives as a separate step.
 */
module GptPage {
  import opened Wrappers
  import opened Text
  import opened PhraseTable
  import Effects
  import opened GeminiService
  import ChatRoute
  import opened SpeechRecognition
  import opened SpeechSynthesis

  // ------------------------------------------------------------ commands

  datatype Command =
    | GoHome
    | GoToScan
    | EmergencyCall
    /** Anything else not blank is said to the assistant, as spoken. */
    | Say(message: string)
    | Blank

  /** The phrase tests of `processTranscript`, in the order they are tried. */
  const Commands: seq<Entry<Command>> := [
    Entry(["go back", "go home"], GoHome),
    Entry(["go to scan", "video analyzer"], GoToScan),
    Entry(["emergency"], EmergencyCall)
  ]

  /** `processTranscript`'s decision for a transcript. */
  function Classify(text: string): Command {
    if IsBlank(text) then Blank
    else match FirstMatch(ToLower(text), Commands)
      case Some(k) => Commands[k].command
      case None => Say(text)
  }

  /**
   * A transcript goes to the assistant, verbatim, exactly when it is not
   * blank and mentions none of the command phrases in any case.
   */
  lemma SayIffNoCommand(text: string)
    ensures Classify(text).Say? <==>
      !IsBlank(text) && forall k :: 0 <= k < |Commands| ==> !Mentions(ToLower(text), Commands[k].phrases)
    ensures Classify(text).Say? ==> Classify(text).message == text
  {
  }

  /** The first phrase group the lower-cased transcript mentions decides the command. */
  lemma FirstMatchWins(text: string, k: int)
    requires !IsBlank(text) && FirstAt(ToLower(text), Commands, k)
    ensures Classify(text) == Commands[k].command
  {
    FirstMatchIs(ToLower(text), Commands, k);
  }

  /** Leaving the page wins over an emergency: "go home, emergency" navigates home and raises nothing. */
  lemma HomeBeforeEmergency(text: string)
    requires !IsBlank(text) && Contains(ToLower(text), "go home")
    ensures Classify(text) == GoHome
  {
    assert Commands[0].phrases[1] == "go home";
    assert Mentions(ToLower(text), Commands[0].phrases);
    FirstMatchIs(ToLower(text), Commands, 0);
  }

  // -------------------------------------------------------- conversation

  const Greeting := ChatMessage("assistant", "Hello! How can I help you today?")
  const Apology := "I'm sorry, I couldn't process your request at the moment. Please try again."
  const EmergencyTitle := "Emergency Contact"
  const ListenWindow := 5000
  const TapPattern: seq<nat> := [100]

  /** The role of the message at position `i`: the assistant speaks first, then the two alternate. */
  function RoleAt(i: nat): string {
    if i % 2 == 0 then "assistant" else "user"
  }

  /** The shape every conversation on the page keeps: the greeting, then alternating user and assistant messages. */
  predicate Conversation(ms: seq<ChatMessage>) {
    && |ms| > 0 && ms[0] == Greeting
    && forall i :: 0 <= i < |ms| ==> ms[i].role == RoleAt(i)
  }

  /** The text added to the conversation for a request's outcome: the answer, or the apology. */
  function Reply(outcome: Effects.Outcome): string {
    match outcome
    case Answered(text) => text
    case Failed => Apology
  }

  /** A message in the expected role extends a conversation. */
  lemma ConversationGrows(ms: seq<ChatMessage>, m: ChatMessage)
    requires Conversation(ms) && m.role == RoleAt(|ms|)
    ensures Conversation(ms + [m])
  {
  }

  /** The formatted turns of a posted conversation: the greeting as a model turn, the rest in order, the new message last. */
  lemma FormattedPosted(ms: seq<ChatMessage>, text: string)
    requires Conversation(ms)
    ensures var f := Formatted(ms + [ChatMessage("user", text)]);
      && |f| == |ms| + 1 && f[0].role == "model" && f[|ms|] == Turn("user", text)
      && forall i :: 0 <= i < |ms| ==> f[i] == ToTurn(ms[i])
  {
    var posted := ms + [ChatMessage("user", text)];
    assert forall i :: 0 <= i < |posted| ==> posted[i].role != "system";
    FormattedWithoutSystem(posted);
    var f := Formatted(posted);
    assert f[0] == ToTurn(posted[0]) && posted[0] == Greeting;
    assert f[|ms|] == ToTurn(posted[|ms|]);
    assert forall i :: 0 <= i < |ms| ==> posted[i] == ms[i];
  }

  /**
   * What the assistant is asked when the page posts its conversation plus
   * a new message: the history is the system prompt spliced into a "Hello"
   * turn, then every earlier message in order, and the message sent is
   * exactly the user's words.
   */
  lemma ChatRequestCarriesMessage(ms: seq<ChatMessage>, text: string)
    requires Conversation(ms)
    ensures var p := Prepared(ms + [ChatMessage("user", text)], Some(ChatRoute.SystemPrompt));
      && |p| == |ms| + 2
      && p[0] == Turn("user", Prompted(ChatRoute.SystemPrompt, DefaultUserText))
      && (forall i :: 0 <= i < |ms| ==> p[i + 1] == ToTurn(ms[i]))
      && LastText(p) == text
  {
    var f := Formatted(ms + [ChatMessage("user", text)]);
    FormattedPosted(ms, text);
    var n := WithLeadingUser(f);
    assert n == [Turn("user", DefaultUserText)] + f;
    PreparedPromptOnlyFirst(ms + [ChatMessage("user", text)], Some(ChatRoute.SystemPrompt));
  }

  // ------------------------------------------------------------- session

  class ChatSession {
    const rec: Recognizer
    const synth: Synthesizer
    /** The accessibility setting read when the page renders. */
    const voiceFeedback: bool

    var isProcessing: bool
    var messages: seq<ChatMessage>
    var transcriptReady: bool
    var effects: seq<Effects.Effect>

    /**
     * The conversation keeps its shape; a request is out exactly when the
     * last message is the user's; and a listening window is only open for
     * this page while no request is out.
     */
    ghost predicate Valid()
      reads this, rec, synth
    {
      && rec.Valid() && synth.Valid()
      && Conversation(messages)
      && (isProcessing <==> |messages| % 2 == 0)
      && (transcriptReady ==> !isProcessing)
    }

    constructor (hasEngine: bool, speechAvailable: bool, voices: seq<Voice>, voiceFeedback: bool)
      ensures Valid() && fresh(rec) && fresh(synth)
      ensures messages == [Greeting] && !isProcessing && !transcriptReady && effects == []
      ensures this.voiceFeedback == voiceFeedback
    {
      rec := new Recognizer(hasEngine);
      synth := new Synthesizer(speechAvailable, voices);
      this.voiceFeedback := voiceFeedback;
      isProcessing := false;
      messages := [Greeting];
      transcriptReady := false;
      effects := [];
    }

    /**
     * `handleUserMessage` up to its request: the message joins the
     * conversation, and the whole conversation so far is posted.
     */
    method HandleUserMessage(text: string)
      requires Valid() && !isProcessing && !transcriptReady
      modifies this`messages, this`isProcessing, this`effects
      ensures Valid() && isProcessing
      ensures messages == old(messages) + [ChatMessage("user", text)]
      ensures effects == old(effects) + [Effects.PostChat(messages)]
    {
      ConversationGrows(messages, ChatMessage("user", text));
      messages := messages + [ChatMessage("user", text)];
      isProcessing := true;
      effects := effects + [Effects.PostChat(messages)];
    }

    /**
     * The rest of `handleUserMessage` once the request comes back: the
     * answer, or the apology, joins the conversation; only an answer is
     * spoken, and only with voice feedback on.
     */
    method CompleteChat(outcome: Effects.Outcome)
      requires Valid() && isProcessing
      modifies this`messages, this`isProcessing, synth`queue
      ensures Valid() && !isProcessing
      ensures messages == old(messages) + [ChatMessage("assistant", Reply(outcome))]
      ensures synth.queue == if outcome.Answered? && voiceFeedback then synth.AfterSpeak(old(synth.queue), outcome.text)
                             else old(synth.queue)
    {
      var reply := Reply(outcome);
      ConversationGrows(messages, ChatMessage("assistant", reply));
      messages := messages + [ChatMessage("assistant", reply)];
      if outcome.Answered? && voiceFeedback {
        synth.Speak(reply);
      }
      isProcessing := false;
    }

    /** `processTranscript(text)`, run by the transcript effect once it has cleared `transcriptReady`. */
    method ProcessTranscript(text: string)
      requires Valid() && !isProcessing && !transcriptReady
      modifies this`messages, this`isProcessing, this`effects
      ensures Valid()
      ensures match Classify(text)
        case Blank => messages == old(messages) && !isProcessing && effects == old(effects)
        case GoHome => messages == old(messages) && !isProcessing && effects == old(effects) + [Effects.Navigate("/")]
        case GoToScan => messages == old(messages) && !isProcessing && effects == old(effects) + [Effects.Navigate("/scan")]
        case EmergencyCall =>
          messages == old(messages) && !isProcessing && effects == old(effects) + [Effects.Toast(EmergencyTitle)]
        case Say(m) =>
          && messages == old(messages) + [ChatMessage("user", m)] && isProcessing
          && effects == old(effects) + [Effects.PostChat(messages)]
    {
      match Classify(text)
      case Blank =>
      case GoHome => effects := effects + [Effects.Navigate("/")];
      case GoToScan => effects := effects + [Effects.Navigate("/scan")];
      case EmergencyCall => effects := effects + [Effects.Toast(EmergencyTitle)];
      case Say(m) => HandleUserMessage(m);
    }

    /**
     * The transcript effect: once listening has stopped with a non-empty
     * transcript from a window this page opened, the transcript is
     * processed, once. No request can be out then.
     */
    method TranscriptEffect()
      requires Valid()
      modifies this`messages, this`isProcessing, this`effects, this`transcriptReady
      ensures Valid()
      ensures old(!rec.isListening && rec.transcript != "" && transcriptReady) ==>
        && !transcriptReady
        && (Classify(rec.transcript).Say? <==> isProcessing)
        && (Classify(rec.transcript).Say? ==>
              && messages == old(messages) + [ChatMessage("user", rec.transcript)]
              && effects == old(effects) + [Effects.PostChat(messages)])
      ensures !old(!rec.isListening && rec.transcript != "" && transcriptReady) ==>
        messages == old(messages) && effects == old(effects) && transcriptReady == old(transcriptReady)
    {
      if !rec.isListening && rec.transcript != "" && transcriptReady {
        transcriptReady := false;
        ProcessTranscript(rec.transcript);
      }
    }

    /**
     * `toggleListening`: while speaking it only stops the speech; else
     * while listening it only stops listening; else, unless a request is
     * out, it opens a five-second listening window for this page.
     */
    method ToggleListening(startThrows: bool)
      requires Valid()
      modifies this`transcriptReady, this`effects, rec, synth
      ensures Valid() && messages == old(messages) && isProcessing == old(isProcessing)
      ensures old(synth.isSpeaking) ==>
        && !synth.isSpeaking && !synth.isPaused && synth.queue == []
        && unchanged(rec) && transcriptReady == old(transcriptReady) && effects == old(effects)
      ensures !old(synth.isSpeaking) && old(rec.isListening) ==>
        && !rec.isListening && !rec.timerPending
        && rec.transcript == old(rec.transcript) && rec.error == old(rec.error)
        && unchanged(synth) && transcriptReady == old(transcriptReady) && effects == old(effects)
      ensures !old(synth.isSpeaking) && !old(rec.isListening) && !old(isProcessing) ==>
        && transcriptReady
        && effects == old(effects) + [Effects.Vibrate(TapPattern)]
        && unchanged(synth)
        && rec.isListening == (rec.hasEngine && !startThrows)
        && (rec.isListening ==> rec.timerPending && rec.timerDuration == ListenWindow && rec.transcript == "")
      ensures !old(synth.isSpeaking) && !old(rec.isListening) && old(isProcessing) ==>
        unchanged(this) && unchanged(rec) && unchanged(synth)
    {
      if synth.isSpeaking {
        synth.Stop();
        return;
      }
      if rec.isListening {
        rec.StopListening();
      } else if !isProcessing {
        rec.StartListening(Some(ListenWindow), startThrows);
        transcriptReady := true;
        effects := effects + [Effects.Vibrate(TapPattern)];
      }
    }
  }

  /**
   * A spoken message and its answer form one exchange: the conversation
   * grows by the user's words and the reply, in that order, and the page is
   * ready for the next message.
   */
  method OneExchange(page: ChatSession, text: string, outcome: Effects.Outcome)
    requires page.Valid() && !page.isProcessing && !page.transcriptReady && Classify(text).Say?
    modifies page`messages, page`isProcessing, page`effects, page.synth`queue
    ensures page.Valid() && !page.isProcessing
    ensures page.messages == old(page.messages) + [ChatMessage("user", text), ChatMessage("assistant", Reply(outcome))]
  {
    SayIffNoCommand(text);
    page.ProcessTranscript(text);
    page.CompleteChat(outcome);
  }
}
