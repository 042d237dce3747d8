/**
 * The emergency button: a first press asks for confirmation, a second press
 * activates, the cancel button backs out. One boolean, `showConfirm`.
 */
module Emergency {
  import opened Effects
  import opened SpeechSynthesis

  datatype ButtonEvent = Pressed | Cancelled

  const PressedPrompt := "Emergency contact button pressed. Press again to confirm or X to cancel."
  const ActivatedPrompt := "Emergency contact activated. Contacting your emergency contact now."
  const CancelledPrompt := "Emergency contact cancelled."
  const ActivatedTitle := "Emergency Contact Activated"
  const ConfirmPattern: seq<nat> := [100, 100, 100]
  const ActivatePattern: seq<nat> := [200, 100, 200, 100, 200]

  /** `showConfirm` after a sequence of clicks, starting from idle. */
  function Confirming(events: seq<ButtonEvent>): bool {
    if events == [] then false
    else match events[|events| - 1]
      case Cancelled => false
      case Pressed => !Confirming(events[..|events| - 1])
  }

  /** The number of presses since the start or since the last cancel. */
  function PressesSinceCancel(events: seq<ButtonEvent>): nat {
    if events == [] || events[|events| - 1] == Cancelled then 0
    else PressesSinceCancel(events[..|events| - 1]) + 1
  }

  /** The button is waiting for confirmation exactly after an odd run of presses. */
  lemma {:induction false} ConfirmingIsOddRun(events: seq<ButtonEvent>)
    ensures Confirming(events) <==> PressesSinceCancel(events) % 2 == 1
  {
    if events != [] && events[|events| - 1] == Pressed {
      ConfirmingIsOddRun(events[..|events| - 1]);
    }
  }

  /**
   * A press activates only when it is the second of a pair: the click just
   * before it was a press, that press did not itself activate, and no
   * cancel came between them.
   */
  lemma ActivationIsSecondPress(events: seq<ButtonEvent>)
    requires Confirming(events)
    ensures |events| > 0 && events[|events| - 1] == Pressed
    ensures !Confirming(events[..|events| - 1])
  {
  }

  /** Pressing twice from idle activates on the second press and ends idle again. */
  lemma TwoPressesActivate(events: seq<ButtonEvent>)
    requires !Confirming(events)
    ensures Confirming(events + [Pressed])
    ensures !Confirming(events + [Pressed, Pressed])
    ensures !Confirming(events + [Pressed, Cancelled, Pressed, Pressed])
  {
    assert (events + [Pressed])[..|events|] == events;
    assert (events + [Pressed, Pressed])[..|events| + 1] == events + [Pressed];
    assert (events + [Pressed, Cancelled, Pressed, Pressed])[..|events| + 3] == events + [Pressed, Cancelled, Pressed];
    assert (events + [Pressed, Cancelled, Pressed])[..|events| + 2] == events + [Pressed, Cancelled];
    assert !Confirming(events + [Pressed, Cancelled]);
    assert Confirming(events + [Pressed, Cancelled, Pressed]);
  }

  class EmergencyButton {
    /** The button's own speech-synthesis hook. */
    const synth: Synthesizer
    var showConfirm: bool
    var effects: seq<Effect>
    /** The clicks so far. */
    ghost var history: seq<ButtonEvent>

    ghost predicate Valid()
      reads this, synth
    {
      synth.Valid() && showConfirm == Confirming(history)
    }

    constructor (speechAvailable: bool, voices: seq<Voice>)
      ensures Valid() && fresh(synth) && !showConfirm && effects == [] && history == []
    {
      synth := new Synthesizer(speechAvailable, voices);
      showConfirm := false;
      effects := [];
      history := [];
    }

    /** `handleEmergencyClick`: from idle ask for confirmation; while confirming activate and return to idle. */
    method Click()
      requires Valid()
      modifies this`showConfirm, this`effects, this`history, synth`queue
      ensures Valid() && history == old(history) + [Pressed]
      ensures showConfirm == !old(showConfirm)
      ensures !old(showConfirm) ==>
        effects == old(effects) + [Vibrate(ConfirmPattern)] && synth.queue == synth.AfterSpeak(old(synth.queue), PressedPrompt)
      ensures old(showConfirm) ==>
        effects == old(effects) + [Toast(ActivatedTitle), Vibrate(ActivatePattern)]
        && synth.queue == synth.AfterSpeak(old(synth.queue), ActivatedPrompt)
      ensures synth.isSpeaking == old(synth.isSpeaking) && synth.isPaused == old(synth.isPaused)
    {
      if !showConfirm {
        showConfirm := true;
        synth.Speak(PressedPrompt);
        effects := effects + [Vibrate(ConfirmPattern)];
      } else {
        synth.Speak(ActivatedPrompt);
        effects := effects + [Toast(ActivatedTitle), Vibrate(ActivatePattern)];
        showConfirm := false;
      }
      history := history + [Pressed];
      assert history[..|history| - 1] == old(history);
    }

    /** The cancel button: back to idle without activating. */
    method Cancel()
      requires Valid()
      modifies this`showConfirm, this`history, synth`queue
      ensures Valid() && history == old(history) + [Cancelled]
      ensures !showConfirm && effects == old(effects)
      ensures synth.queue == synth.AfterSpeak(old(synth.queue), CancelledPrompt)
      ensures synth.isSpeaking == old(synth.isSpeaking) && synth.isPaused == old(synth.isPaused)
    {
      showConfirm := false;
      synth.Speak(CancelledPrompt);
      history := history + [Cancelled];
    }
  }
}
