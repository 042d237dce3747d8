/**
 * The landing page: a welcome announcement, and a voice command that
 * opens one of the three features. The page keeps its own "listening"
 * flag beside the recognizer's.
 */
module HomePage {
  import opened Wrappers
  import opened Text
  import opened PhraseTable
  import Effects
  import opened SpeechRecognition
  import opened SpeechSynthesis

  /** Where a recognised command leads, and what is said on the way. */
  datatype Destination = Destination(path: string, announcement: string)

  /** The phrase tests of the transcript effect, in the order they are tried. */
  const Destinations: seq<Entry<Destination>> := [
    Entry(["smart navigation", "navigation"], Destination("/navigation", "Opening smart navigation")),
    Entry(["video analyzer", "scan", "video"], Destination("/scan", "Opening video analyzer")),
    Entry(["voice assistant", "gpt", "assistant"], Destination("/gpt", "Opening voice assistant")),
    Entry(["get started"], Destination("/gpt", "Getting started with Vision Assist"))
  ]

  const WelcomeText := "Welcome to Vision Assist AI. Empowering navigation through voice and vision."
  const ListeningText := "Listening. Say \"Smart Navigation\", \"Video Analyzer\", or \"Voice Assistant\""
  const ListeningTitle := "Listening..."
  const StoppedTitle := "Voice recognition stopped"
  const LongTapPattern: seq<nat> := [200]

  /** The destination a transcript selects: none for an empty transcript or one naming no feature. */
  function Route(transcript: string): Option<Destination> {
    if transcript == "" then None
    else match FirstMatch(ToLower(transcript), Destinations)
      case Some(k) => Some(Destinations[k].command)
      case None => None
  }

  /** Mentioning `long` is mentioning `short` when `short` sits at `at` inside it. */
  lemma Within(command: string, long: string, short: string, at: nat)
    requires at + |short| <= |long| && long[at..at + |short|] == short
    ensures Contains(command, long) ==> Contains(command, short)
  {
    if Contains(command, long) {
      ContainsAt(long, short, at);
      ContainsTransitive(command, long, short);
    }
  }

  // The long phrases add nothing: each group is mentioned exactly when
  // one of its short words is.

  /** The navigation group is mentioned exactly when "navigation" is. */
  lemma NavigationWords(command: string)
    ensures Mentions(command, Destinations[0].phrases) <==> Contains(command, "navigation")
  {
    var p := Destinations[0].phrases;
    assert p[0][6..16] == "navigation";
    Within(command, p[0], "navigation", 6);
    if Contains(command, "navigation") {
      assert Contains(command, p[1]);
    }
  }

  /** The video analyzer group is mentioned exactly when "scan" or "video" is. */
  lemma VideoWords(command: string)
    ensures Mentions(command, Destinations[1].phrases) <==> Contains(command, "scan") || Contains(command, "video")
  {
    var p := Destinations[1].phrases;
    assert p[0][0..5] == "video";
    Within(command, p[0], "video", 0);
    if Contains(command, "scan") {
      assert Contains(command, p[1]);
    }
    if Contains(command, "video") {
      assert Contains(command, p[2]);
    }
  }

  /** The assistant group is mentioned exactly when "gpt" or "assistant" is. */
  lemma AssistantWords(command: string)
    ensures Mentions(command, Destinations[2].phrases) <==> Contains(command, "gpt") || Contains(command, "assistant")
  {
    var p := Destinations[2].phrases;
    assert p[0][6..15] == "assistant";
    Within(command, p[0], "assistant", 6);
    if Contains(command, "gpt") {
      assert Contains(command, p[1]);
    }
    if Contains(command, "assistant") {
      assert Contains(command, p[2]);
    }
  }

  /**
   * A transcript naming both the video analyzer and the assistant, but not
   * navigation, opens the video analyzer.
   */
  lemma ScanBeforeAssistant(transcript: string)
    requires Contains(ToLower(transcript), "scan") && !Contains(ToLower(transcript), "navigation")
    ensures Route(transcript) == Some(Destination("/scan", "Opening video analyzer"))
  {
    var c := ToLower(transcript);
    NavigationWords(c);
    VideoWords(c);
    assert transcript != "" by {
      var i :| 0 <= i <= |c| && "scan" <= c[i..];
    }
    FirstMatchIs(c, Destinations, 1);
  }

  /** "get started" leads to the assistant only when no feature is named. */
  lemma GetStartedIsLast(transcript: string)
    requires Contains(ToLower(transcript), "get started")
    ensures Route(transcript).Some? && Route(transcript).value.path in {"/navigation", "/scan", "/gpt"}
    ensures Route(transcript).value.announcement == "Getting started with Vision Assist" <==>
      forall k :: 0 <= k < 3 ==> !Mentions(ToLower(transcript), Destinations[k].phrases)
    ensures Route(transcript).value.announcement == "Getting started with Vision Assist" ==>
      Route(transcript).value.path == "/gpt"
  {
    var c := ToLower(transcript);
    assert transcript != "" by {
      var i :| 0 <= i <= |c| && "get started" <= c[i..];
    }
    assert Destinations[3].phrases[0] == "get started";
    assert Mentions(c, Destinations[3].phrases);
  }

  class HomeSession {
    const rec: Recognizer
    const synth: Synthesizer
    /** The accessibility setting read when the page renders. */
    const voiceFeedback: bool
    /** The page's own idea of whether it is listening, kept apart from the recognizer's. */
    var isListening: bool
    var effects: seq<Effects.Effect>

    ghost predicate Valid()
      reads this, rec, synth
    {
      rec.Valid() && synth.Valid()
    }

    constructor (hasEngine: bool, speechAvailable: bool, voices: seq<Voice>, voiceFeedback: bool)
      ensures Valid() && fresh(rec) && fresh(synth)
      ensures !isListening && effects == [] && this.voiceFeedback == voiceFeedback
    {
      rec := new Recognizer(hasEngine);
      synth := new Synthesizer(speechAvailable, voices);
      this.voiceFeedback := voiceFeedback;
      isListening := false;
      effects := [];
    }

    /** The welcome timer fires a second after the page mounts: the welcome is spoken with voice feedback on. */
    method Welcome()
      requires Valid()
      modifies synth`queue
      ensures Valid()
      ensures synth.queue == if voiceFeedback then synth.AfterSpeak(old(synth.queue), WelcomeText) else old(synth.queue)
    {
      if voiceFeedback {
        synth.Speak(WelcomeText);
      }
    }

    /**
     * The transcript effect, run whenever the transcript changes: a
     * recognised destination is announced (whatever the voice feedback
     * setting) and opened; any non-empty transcript is then cleared.
     */
    method TranscriptEffect()
      requires Valid()
      modifies this`effects, synth`queue, rec`transcript
      ensures Valid()
      ensures old(rec.transcript) == "" ==> rec.transcript == "" && effects == old(effects) && synth.queue == old(synth.queue)
      ensures old(rec.transcript) != "" ==> rec.transcript == ""
      ensures match Route(old(rec.transcript))
        case Some(d) =>
          && effects == old(effects) + [Effects.Navigate(d.path)]
          && synth.queue == synth.AfterSpeak(old(synth.queue), d.announcement)
        case None => effects == old(effects) && synth.queue == old(synth.queue)
    {
      if rec.transcript == "" {
        return;
      }
      match Route(rec.transcript) {
        case Some(d) =>
          synth.Speak(d.announcement);
          effects := effects + [Effects.Navigate(d.path)];
        case None =>
      }
      rec.ResetTranscript();
    }

    /**
     * `toggleListening`, driven by the page's own flag: stop listening and
     * say so, or start a default-length window, announce it, and vibrate.
     */
    method ToggleListening(startThrows: bool)
      requires Valid()
      modifies this`isListening, this`effects, rec`transcript, rec`isListening, rec`error, rec`timerPending,
               rec`timerDuration, synth`queue
      ensures Valid() && isListening == !old(isListening)
      ensures old(isListening) ==>
        && !rec.isListening && !rec.timerPending && rec.transcript == old(rec.transcript)
        && effects == old(effects) + [Effects.Toast(StoppedTitle)] && synth.queue == old(synth.queue)
      ensures !old(isListening) ==>
        && effects == old(effects) + [Effects.Toast(ListeningTitle), Effects.Vibrate(LongTapPattern)]
        && synth.queue == synth.AfterSpeak(old(synth.queue), ListeningText)
        && (rec.hasEngine && !startThrows ==> rec.isListening && rec.timerPending && rec.timerDuration == DefaultDuration)
    {
      if isListening {
        rec.StopListening();
        isListening := false;
        effects := effects + [Effects.Toast(StoppedTitle)];
      } else {
        rec.StartListening(None, startThrows);
        isListening := true;
        synth.Speak(ListeningText);
        effects := effects + [Effects.Toast(ListeningTitle), Effects.Vibrate(LongTapPattern)];
      }
    }
  }

  /**
   * The page's flag does not follow the recognizer: once the listening
   * window times out, the page still believes it is listening, so the
   * next press only stops what has already stopped.
   */
  method ListeningFlagDrifts(page: HomeSession)
    requires page.Valid() && !page.isListening && page.rec.hasEngine
    modifies page`isListening, page`effects, page.rec, page.synth`queue
    ensures page.Valid() && page.isListening && !page.rec.isListening
  {
    page.ToggleListening(false);
    page.rec.TimerFires();
  }
}
