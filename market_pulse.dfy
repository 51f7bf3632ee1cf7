/**
 * The market-pulse form on the dashboard: its validation and the chained
 * analysis then speech calls of `onSubmit`, with the `analysis`,
 * `audioDataUri` and `isLoading` state they set.
 */
module MarketPulse {
  import opened Outcomes
  import opened Toasts
  import opened MarketPulseFlow
  import TextToSpeech
  import JsString

  /** The form schema: a topic of JavaScript length two or more (UTF-16 code units). */
  predicate ValidTopic(values: PulseInput)
  {
    JsString.Utf16Length(values.topic) >= 2
  }

  /**
   * Any two characters make a valid topic, one character of the Basic
   * Multilingual Plane does not, and a single emoji does: it is two code units.
   */
  lemma TopicLength(a: char, b: char, c: char, e: char)
    requires c as int < 0x1_0000 && e as int >= 0x1_0000
    ensures ValidTopic(PulseInput([a, b]))
    ensures !ValidTopic(PulseInput([c]))
    ensures ValidTopic(PulseInput([e]))
  {
    JsString.AstralLength(e);
  }

  const AnalysisCompleteTitle := "Analysis Complete"
  const AudioReadyTitle := "Audio Summary Ready"
  const FailedTitle := "Analysis Failed"

  /** Where `onSubmit` is suspended. */
  datatype Stage = Idle | AwaitingPulse | AwaitingSpeech

  /** The widget's state. */
  class PulseWidget {
    var isLoading: bool
    var analysis: Option<string>
    var audioDataUri: Option<string>
    var toasts: seq<Toast>
    var pulseRequests: seq<PulseInput>
    var speechRequests: seq<string>
    ghost var stage: Stage

    constructor ()
      ensures !isLoading && analysis.None? && audioDataUri.None?
      ensures toasts == [] && pulseRequests == [] && speechRequests == [] && stage == Idle
    {
      isLoading, analysis, audioDataUri := false, None, None;
      toasts, pulseRequests, speechRequests := [], [], [];
      stage := Idle;
    }

    /** The analysis block renders when `analysis` is a non-empty string. */
    predicate AnalysisVisible()
      reads this
    {
      analysis.Some? && analysis.value != ""
    }

    /** The player renders inside the analysis block, when `audioDataUri` is a non-empty string. */
    predicate AudioVisible()
      reads this
      ensures AudioVisible() ==> AnalysisVisible()
    {
      AnalysisVisible() && audioDataUri.Some? && audioDataUri.value != ""
    }

    /**
     * `form.handleSubmit(onSubmit)` up to the analysis call: an invalid
     * topic does nothing; otherwise loading starts, both fields are cleared
     * and the values are sent.
     */
    method Submit(values: PulseInput) returns (started: bool)
      requires stage == Idle
      modifies this
      ensures started <==> ValidTopic(values)
      ensures !started ==>
        && stage == Idle && isLoading == old(isLoading) && analysis == old(analysis)
        && audioDataUri == old(audioDataUri) && toasts == old(toasts)
        && pulseRequests == old(pulseRequests) && speechRequests == old(speechRequests)
      ensures started ==>
        && stage == AwaitingPulse && isLoading && analysis.None? && audioDataUri.None?
        && toasts == old(toasts) && pulseRequests == old(pulseRequests) + [values]
        && speechRequests == old(speechRequests)
    {
      if !ValidTopic(values) {
        return false;
      }
      isLoading := true;
      analysis := None;
      audioDataUri := None;
      pulseRequests := pulseRequests + [values];
      stage := AwaitingPulse;
      started := true;
    }

    /**
     * The analysis call settles. On success the analysis is shown and its
     * audio script goes to the speech call; on failure nothing is set, a
     * destructive toast is raised and loading ends.
     */
    method OnPulseResult(answer: Call<PulseOutput>)
      requires stage == AwaitingPulse
      modifies this
      ensures audioDataUri == old(audioDataUri) && pulseRequests == old(pulseRequests)
      ensures answer.Success? ==>
        && stage == AwaitingSpeech && isLoading == old(isLoading)
        && analysis == Some(answer.value.analysis)
        && toasts == old(toasts) + [Toast(AnalysisCompleteTitle, false)]
        && speechRequests == old(speechRequests) + [answer.value.audioScript]
      ensures answer.Failure? ==>
        && stage == Idle && !isLoading && analysis == old(analysis)
        && toasts == old(toasts) + [Toast(FailedTitle, true)]
        && speechRequests == old(speechRequests)
    {
      if answer.Failure? {
        toasts := toasts + [Toast(FailedTitle, true)];
        isLoading := false;
        stage := Idle;
        return;
      }
      analysis := Some(answer.value.analysis);
      toasts := toasts + [Toast(AnalysisCompleteTitle, false)];
      speechRequests := speechRequests + [answer.value.audioScript];
      stage := AwaitingSpeech;
    }

    /**
     * The speech call settles. On success the audio is set; on failure the
     * analysis stays and the audio stays cleared. Loading ends either way.
     */
    method OnSpeechResult(answer: Call<TextToSpeech.TtsOutput>)
      requires stage == AwaitingSpeech
      modifies this
      ensures stage == Idle && !isLoading
      ensures analysis == old(analysis) && pulseRequests == old(pulseRequests) && speechRequests == old(speechRequests)
      ensures answer.Success? ==>
        audioDataUri == Some(answer.value.audioDataUri) && toasts == old(toasts) + [Toast(AudioReadyTitle, false)]
      ensures answer.Failure? ==>
        audioDataUri == old(audioDataUri) && toasts == old(toasts) + [Toast(FailedTitle, true)]
    {
      if answer.Success? {
        audioDataUri := Some(answer.value.audioDataUri);
        toasts := toasts + [Toast(AudioReadyTitle, false)];
      } else {
        toasts := toasts + [Toast(FailedTitle, true)];
      }
      isLoading := false;
      stage := Idle;
    }
  }

  /**
   * A whole submission whose analysis call succeeds. The speech call gets
   * the analysis's audio script; the analysis is shown whatever the speech
   * call does; audio that the speech flow produced (a data URI, so
   * non-empty) is shown exactly when the analysis text is non-empty.
   */
  method PulseThenSpeech(w: PulseWidget, values: PulseInput, pulse: PulseOutput, speech: Call<TextToSpeech.TtsOutput>)
    requires w.stage == Idle && ValidTopic(values)
    requires speech.Success? ==> |speech.value.audioDataUri| >= |TextToSpeech.DataUriPrefix|
    modifies w
    ensures !w.isLoading && w.stage == Idle
    ensures w.pulseRequests == old(w.pulseRequests) + [values]
    ensures w.speechRequests == old(w.speechRequests) + [pulse.audioScript]
    ensures w.analysis == Some(pulse.analysis)
    ensures speech.Failure? ==> w.audioDataUri.None? && !w.AudioVisible()
    ensures speech.Success? ==> (w.AudioVisible() <==> pulse.analysis != "")
  {
    var started := w.Submit(values);
    w.OnPulseResult(Success(pulse));
    w.OnSpeechResult(speech);
  }

  /** A failed analysis call leaves both fields cleared and asks for no speech. */
  method PulseFails(w: PulseWidget, values: PulseInput, reason: string)
    requires w.stage == Idle && ValidTopic(values)
    modifies w
    ensures !w.isLoading && w.stage == Idle
    ensures w.analysis.None? && w.audioDataUri.None? && !w.AnalysisVisible()
    ensures w.speechRequests == old(w.speechRequests)
  {
    var started := w.Submit(values);
    w.OnPulseResult(Failure(reason));
  }
}
