/**
 * Two whole invocations of `run`, worked out on the model: a page whose
 * audio challenge never arrives, and a first attempt that goes through to a
 * page without slots.
 */
module Scenarios {
  import opened Options
  import opened Captcha
  import opened Flow
  import Text

  /** When no audio ever arrives, every try reads an empty slot and nothing is accepted. */
  lemma {:induction false} SilentCapture(w: World, attempt: nat, tries: nat)
    requires tries <= MaxAudioRetries
    requires forall retry :: w.capture(attempt, retry) == Clicked(None)
    ensures var run := CaptureAfter(w, attempt, None, tries);
      && |run.results| == tries && !run.accepted && run.slot == None
      && (forall k :: 0 <= k < tries ==> run.results[k] == Read(NoData))
    decreases tries
  {
    if tries > 0 {
      SilentCapture(w, attempt, tries - 1);
    }
  }

  /**
   * When no audio ever arrives, `run` makes all its attempts, each with all
   * its tries, and fails with the exhaustion message, which is also the
   * only notification.
   */
  lemma Silence(w: World)
    requires forall attempt, retry :: w.capture(attempt, retry) == Clicked(None)
    ensures var run := Workflow(w);
      && |run.attempts| == MaxCaptchaAttempts
      && (forall i :: 0 <= i < MaxCaptchaAttempts ==>
            run.attempts[i].end == NoAudio && |run.attempts[i].capture.results| == MaxAudioRetries)
      && run.exhausted && run.outcome == Failure(ExhaustedMessage)
      && WorkflowNotes(run) == [ExhaustedAlert]
  {
    var run := Workflow(w);
    WorkflowShape(w);
    forall i | 0 <= i < |run.attempts|
      ensures run.attempts[i].end == NoAudio && |run.attempts[i].capture.results| == MaxAudioRetries
    {
      SilentCapture(w, i + 1, MaxAudioRetries);
    }
    AttemptsNotesQuiet(run.attempts);
  }

  /** The first attempt of the scenario below: one try, one call, and the page without slots. */
  lemma FirstAttemptFindsNoSlots(w: World, audio: Payload, url: string, text: string)
    requires w.capture(1, 1) == Clicked(Some(audio)) && Judge(Some(audio)) == Accepted
    requires Usable(Normalise(w.transcribe(1, 1)))
    requires w.submit(1) == Landed(url, PageText(text))
    requires !Text.OccursIn(InvalidCaptchaMarker, url) && Text.OccursIn(NoSlotsPhrase, text)
    ensures AttemptOf(w, 1) == AttemptRun(
      CaptureRun([Read(Accepted)], Some(audio), true),
      TranscriptionRun([w.transcribe(1, 1)], Normalise(w.transcribe(1, 1))),
      NoSlots)
  {
    assert CaptureAfter(w, 1, None, 1) == CaptureRun([Read(Accepted)], Some(audio), true);
    CaptureSettled(w, 1, None, 1, MaxAudioRetries);
    assert TranscribeAfter(w, 1, 1) == TranscriptionRun([w.transcribe(1, 1)], Normalise(w.transcribe(1, 1)));
    TranscriptionSettled(w, 1, 1, MaxGeminiRetries);
    SubmissionClassified(w.submit(1));
  }

  /** The trace and the notifications of an attempt that reads, transcribes and finds no slot at once. */
  lemma TracesOfNoSlots(audio: Payload, raw: Option<string>, code: string)
    ensures var r := AttemptRun(CaptureRun([Read(Accepted)], Some(audio), true), TranscriptionRun([raw], Some(code)), NoSlots);
      && AttemptsEvents([r]) == [ResetSlot, CaptureTry(1, 1, Read(Accepted)), TranscriptionCall(1, 1, raw), TypeCode(1, code)]
      && AttemptsNotes([r]) == []
  {
    var r := AttemptRun(CaptureRun([Read(Accepted)], Some(audio), true), TranscriptionRun([raw], Some(code)), NoSlots);
    assert [r][..0] == [];
    assert CaptureEvents(1, [Read(Accepted)]) == [CaptureTry(1, 1, Read(Accepted))];
    assert TranscriptionEvents(1, [raw]) == [TranscriptionCall(1, 1, raw)];
  }

  /**
   * A first try that captures acceptable audio, a first transcription with
   * a usable code and a submission that lands on a page saying there is no
   * slot: `run` returns "no slots" after that one attempt and sends nothing.
   */
  lemma NoSlotsAtFirstAttempt(w: World, audio: Payload, url: string, text: string)
    requires w.capture(1, 1) == Clicked(Some(audio)) && Judge(Some(audio)) == Accepted
    requires Usable(Normalise(w.transcribe(1, 1)))
    requires w.submit(1) == Landed(url, PageText(text))
    requires !Text.OccursIn(InvalidCaptchaMarker, url) && Text.OccursIn(NoSlotsPhrase, text)
    ensures var run := Workflow(w);
      && |run.attempts| == 1
      && run.outcome == Success(false, NoSlotsMessage) && !run.exhausted
      && WorkflowNotes(run) == []
  {
    FirstAttemptFindsNoSlots(w, audio, url, text);
    FirstAttemptReturns(Attempts(w));
    TracesOfNoSlots(audio, w.transcribe(1, 1), Text.Strip(w.transcribe(1, 1).value));
  }

  /** In the same run the driver does exactly the steps of that one attempt. */
  lemma NoSlotsAtFirstAttemptTrace(w: World, audio: Payload, url: string, text: string)
    requires w.capture(1, 1) == Clicked(Some(audio)) && Judge(Some(audio)) == Accepted
    requires Usable(Normalise(w.transcribe(1, 1)))
    requires w.submit(1) == Landed(url, PageText(text))
    requires !Text.OccursIn(InvalidCaptchaMarker, url) && Text.OccursIn(NoSlotsPhrase, text)
    ensures WorkflowEvents(Workflow(w)) == [
      Navigate(BookingPage), InjectHooks, ResetSlot,
      CaptureTry(1, 1, Read(Accepted)),
      TranscriptionCall(1, 1, w.transcribe(1, 1)),
      TypeCode(1, Text.Strip(w.transcribe(1, 1).value))]
  {
    FirstAttemptFindsNoSlots(w, audio, url, text);
    FirstAttemptReturns(Attempts(w));
    TracesOfNoSlots(audio, w.transcribe(1, 1), Text.Strip(w.transcribe(1, 1).value));
  }
}
