/**
 * The speech-recognition hook: a transcript, a listening flag, an error and
 * at most one pending auto-stop timer. The engine is the browser's; whether
 * it exists, whether `start()` throws, and its result/error/end callbacks are
 * inputs to the model. The timer is a `timerPending` flag and an explicit
 * `TimerFires` event.
 */
module SpeechRecognition {
  import opened Wrappers

  /** The duration `startListening` uses when called without one. */
  const DefaultDuration := 5000
  const NotSupported := "Speech recognition not supported in this browser"
  const NotInitialized := "Speech recognition not initialized"
  const StartFailed := "Error starting speech recognition"

  /** One recognition result: its alternatives, best first (`results[i][0]` is `best`). */
  datatype RecognitionResult = RecognitionResult(best: string, others: seq<string>)

  /** The in-order concatenation of the best alternative of every result. */
  function Joined(results: seq<RecognitionResult>): string {
    if results == [] then "" else Joined(results[..|results| - 1]) + results[|results| - 1].best
  }

  /** Joining distributes over concatenation of result lists. */
  lemma {:induction false} JoinedAppend(a: seq<RecognitionResult>, b: seq<RecognitionResult>)
    ensures Joined(a + b) == Joined(a) + Joined(b)
    decreases |b|
  {
    if |b| == 0 {
      assert a + b == a;
    } else {
      var b', last := b[..|b| - 1], b[|b| - 1];
      var ab := a + b;
      assert ab[..|ab| - 1] == a + b' && ab[|ab| - 1] == last;
      assert Joined(ab) == Joined(a + b') + last.best;
      JoinedAppend(a, b');
      assert Joined(b) == Joined(b') + last.best;
    }
  }

  /** Each result's best alternative sits in the transcript right after those of the results before it. */
  lemma JoinedAt(results: seq<RecognitionResult>, i: nat)
    requires i < |results|
    ensures var pre := |Joined(results[..i])|;
      pre + |results[i].best| <= |Joined(results)|
      && Joined(results)[pre..pre + |results[i].best|] == results[i].best
  {
    assert results == results[..i] + [results[i]] + results[i + 1..];
    JoinedAppend(results[..i] + [results[i]], results[i + 1..]);
    JoinedAppend(results[..i], [results[i]]);
    assert Joined([results[i]]) == results[i].best by {
      assert [results[i]][..0] == [];
    }
  }

  /** The `for` loop of `onresult` that builds `fullTranscript`. */
  method JoinTranscript(results: seq<RecognitionResult>) returns (full: string)
    ensures full == Joined(results)
  {
    full := "";
    for i := 0 to |results|
      invariant full == Joined(results[..i])
    {
      assert results[..i + 1][..i] == results[..i];
      full := full + results[i].best;
    }
    assert results[..|results|] == results;
  }

  class Recognizer {
    /** A recognition engine was found when the hook was set up. */
    const hasEngine: bool
    var transcript: string
    var isListening: bool
    var error: Option<string>
    /** An auto-stop timer is set and has neither fired nor been cleared. */
    var timerPending: bool
    /** The duration of the most recently set auto-stop timer. */
    var timerDuration: int

    ghost predicate Valid()
      reads this
    {
      !hasEngine ==> !isListening && !timerPending
    }

    /** The set-up effect: an engine is created, or the "not supported" error is recorded. */
    constructor (hasEngine: bool)
      ensures Valid() && this.hasEngine == hasEngine
      ensures transcript == "" && !isListening && !timerPending
      ensures error == if hasEngine then None else Some(NotSupported)
    {
      this.hasEngine := hasEngine;
      transcript := "";
      isListening := false;
      timerPending := false;
      timerDuration := DefaultDuration;
      error := if hasEngine then None else Some(NotSupported);
    }

    /**
     * `startListening(duration)`: clears any pending timer, resets the
     * transcript, starts the engine and sets a fresh timer. `startThrows`
     * is whether the engine's `start()` throws.
     */
    method StartListening(duration: Option<int>, startThrows: bool)
      requires Valid()
      modifies this`transcript, this`isListening, this`error, this`timerPending, this`timerDuration
      ensures Valid()
      ensures !hasEngine ==>
        && error == Some(NotInitialized)
        && transcript == old(transcript) && timerPending == old(timerPending) && timerDuration == old(timerDuration)
      ensures hasEngine && startThrows ==>
        && transcript == "" && !timerPending && error == Some(StartFailed) && timerDuration == old(timerDuration)
      ensures hasEngine && !startThrows ==>
        && transcript == "" && isListening && error == None
        && timerPending && timerDuration == duration.GetOr(DefaultDuration)
      ensures !(hasEngine && !startThrows) ==> isListening == old(isListening)
    {
      if hasEngine {
        timerPending := false;
        transcript := "";
        if startThrows {
          error := Some(StartFailed);
          return;
        }
        isListening := true;
        error := None;
        timerDuration := duration.GetOr(DefaultDuration);
        timerPending := true;
      } else {
        error := Some(NotInitialized);
      }
    }

    /** The auto-stop timer fires: the engine is stopped and listening ends. */
    method TimerFires()
      requires Valid()
      modifies this`isListening, this`timerPending
      ensures Valid() && !timerPending
      ensures isListening == (old(isListening) && !old(timerPending))
    {
      if timerPending {
        isListening := false;
        timerPending := false;
      }
    }

    /** `stopListening`: afterwards nothing is listening and no timer is pending. */
    method StopListening()
      requires Valid()
      modifies this`isListening, this`timerPending
      ensures Valid() && !isListening && !timerPending
    {
      if hasEngine {
        isListening := false;
      }
      timerPending := false;
    }

    /** `resetTranscript` clears the transcript and nothing else. */
    method ResetTranscript()
      modifies this`transcript
      ensures transcript == ""
    {
      transcript := "";
    }

    /** The engine's `onresult`: the transcript becomes the joined best alternatives of all results so far. */
    method OnResult(results: seq<RecognitionResult>)
      modifies this`transcript
      ensures transcript == Joined(results)
    {
      transcript := JoinTranscript(results);
    }

    /** The engine's `onerror`: the error is recorded and listening ends. */
    method OnError(e: string)
      requires Valid()
      modifies this`error, this`isListening
      ensures Valid() && error == Some(e) && !isListening
    {
      error := Some(e);
      isListening := false;
    }

    /** The engine's `onend`: listening ends; a pending timer stays pending. */
    method OnEnd()
      requires Valid()
      modifies this`isListening
      ensures Valid() && !isListening
    {
      isListening := false;
    }
  }

  /** Stopping twice leaves the same state as stopping once. */
  method StopIsIdempotent(r: Recognizer)
    requires r.Valid()
    modifies r
    ensures r.Valid() && !r.isListening && !r.timerPending
    ensures r.transcript == old(r.transcript) && r.error == old(r.error)
  {
    r.StopListening();
    var listening, pending, transcript, error := r.isListening, r.timerPending, r.transcript, r.error;
    r.StopListening();
    assert r.isListening == listening && r.timerPending == pending;
    assert r.transcript == transcript && r.error == error;
  }
}
