/**
 * The speech-synthesis hook: `isSpeaking` and `isPaused` flags driven by the
 * hook's methods and the utterance callbacks, and the English voice choice.
 * The platform (`window.speechSynthesis`) is present or not, and its voice
 * list is fixed for the lifetime of the hook.
 */
module SpeechSynthesis {
  import opened Wrappers
  import opened Text

  datatype Voice = Voice(name: string, lang: string)

  /** An utterance handed to the platform: its text and the voice chosen for it (none: the platform default). */
  datatype Utterance = Utterance(text: string, voice: Option<Voice>)

  /** The test of the first `find` (`femaleOnly`) or of the second. */
  predicate Wanted(v: Voice, femaleOnly: bool) {
    Contains(v.lang, "en") && (femaleOnly ==> Contains(v.name, "Female"))
  }

  /** Voice `k` is the first voice that passes the test. */
  predicate FirstWanted(vs: seq<Voice>, k: int, femaleOnly: bool) {
    0 <= k < |vs| && Wanted(vs[k], femaleOnly) && forall j :: 0 <= j < k ==> !Wanted(vs[j], femaleOnly)
  }

  /** The index `voices.find(...)` lands on. */
  function FindVoice(vs: seq<Voice>, femaleOnly: bool): (r: Option<nat>)
    ensures r.Some? ==> FirstWanted(vs, r.value, femaleOnly)
    ensures r.None? ==> forall j :: 0 <= j < |vs| ==> !Wanted(vs[j], femaleOnly)
  {
    if vs == [] then None
    else if Wanted(vs[0], femaleOnly) then Some(0)
    else match FindVoice(vs[1..], femaleOnly)
      case None => None
      case Some(k) => Some(k + 1)
  }

  /**
   * The voice `speak` picks: the first English voice named "Female", else
   * the first English voice, else none (the platform default).
   */
  function ChooseVoice(vs: seq<Voice>): (r: Option<Voice>)
    ensures (exists k :: FirstWanted(vs, k, true)) ==>
      exists k :: FirstWanted(vs, k, true) && r == Some(vs[k])
    ensures (forall k :: 0 <= k < |vs| ==> !Wanted(vs[k], true)) && (exists k :: FirstWanted(vs, k, false)) ==>
      exists k :: FirstWanted(vs, k, false) && r == Some(vs[k])
    ensures r.None? <==> forall k :: 0 <= k < |vs| ==> !Wanted(vs[k], false)
  {
    match FindVoice(vs, true)
    case Some(k) => Some(vs[k])
    case None =>
      match FindVoice(vs, false)
      case Some(k) => Some(vs[k])
      case None => None
  }

  class Synthesizer {
    /** `window.speechSynthesis` exists. */
    const available: bool
    /** What `getVoices()` returns. */
    const voices: seq<Voice>
    var isSpeaking: bool
    var isPaused: bool
    /** The utterances handed to the platform since it was last cancelled. */
    var queue: seq<Utterance>

    ghost predicate Valid()
      reads this
    {
      && (isPaused ==> isSpeaking)
      && (!available ==> !isSpeaking && queue == [])
    }

    /** The set-up effect cancels whatever the platform was saying. */
    constructor (available: bool, voices: seq<Voice>)
      ensures Valid() && this.available == available && this.voices == voices
      ensures !isSpeaking && !isPaused && queue == []
    {
      this.available := available;
      this.voices := voices;
      isSpeaking, isPaused := false, false;
      queue := [];
    }

    /** The queue `speak(text)` leaves behind, starting from `q`. */
    function AfterSpeak(q: seq<Utterance>, text: string): seq<Utterance> {
      if available then [Utterance(text, ChooseVoice(voices))] else q
    }

    /** `speak`: cancel whatever is queued, then queue one utterance in the chosen voice. */
    method Speak(text: string)
      requires Valid()
      modifies this`queue
      ensures Valid()
      ensures queue == AfterSpeak(old(queue), text)
    {
      if available {
        queue := [];
        queue := queue + [Utterance(text, ChooseVoice(voices))];
      }
    }

    /** `stop` (and its alias `stopSpeaking`): cancel everything; neither speaking nor paused afterwards. */
    method Stop()
      requires Valid()
      modifies this`queue, this`isSpeaking, this`isPaused
      ensures Valid() && !isSpeaking && !isPaused && queue == []
    {
      if available {
        queue := [];
        isSpeaking := false;
        isPaused := false;
      }
    }

    /** `pause`: only while speaking, and then it marks the speech paused. */
    method Pause()
      requires Valid()
      modifies this`isPaused
      ensures Valid()
      ensures isPaused == (old(isPaused) || (available && isSpeaking))
    {
      if available && isSpeaking {
        isPaused := true;
      }
    }

    /** `resume`: only while paused, and then it clears the pause. */
    method Resume()
      requires Valid()
      modifies this`isPaused
      ensures Valid()
      ensures isPaused == (old(isPaused) && !available)
    {
      if available && isPaused {
        isPaused := false;
      }
    }

    /** An utterance's `onstart`; only a platform that exists can report one. */
    method OnStart()
      requires Valid() && available
      modifies this`isSpeaking
      ensures Valid() && isSpeaking
    {
      isSpeaking := true;
    }

    /** An utterance's `onend` or `onerror`, or the platform's global `end` event: both flags clear. */
    method OnFinished()
      requires Valid()
      modifies this`isSpeaking, this`isPaused
      ensures Valid() && !isSpeaking && !isPaused
    {
      isSpeaking := false;
      isPaused := false;
    }
  }
}
