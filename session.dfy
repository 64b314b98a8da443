/**
 * The imperative core of `run`: a browser session whose page holds the
 * hook's `capturedAudioData` slot, with the trace of what the driver did and
 * the notifications sent. `RunWorkflow` follows the three nested loops of
 * `run` statement by statement and is proved to do exactly what `Workflow`
 * specifies.
 */
module Bot {
  import opened Options
  import opened Captcha
  import opened Notifier
  import opened Flow
  import Text

  /** Appending the parts of a trace one by one is appending the whole trace. */
  lemma Regroup<T>(start: seq<T>, a: seq<T>, b: seq<T>)
    ensures start + a + b == start + (a + b)
  {
  }

  /** The traces after one more attempt are the traces of one more attempt. */
  lemma TracesStep(prefix: seq<Event>, start: seq<Alert>, done: seq<AttemptRun>, run: AttemptRun,
                   trace: seq<Event>, trace': seq<Event>, sent: seq<Alert>, sent': seq<Alert>)
    requires trace == prefix + AttemptsEvents(done) && trace' == trace + AttemptEvents(|done| + 1, run)
    requires sent == start + AttemptsNotes(done) && sent' == sent + AttemptNotes(run.end)
    ensures trace' == prefix + AttemptsEvents(done + [run])
    ensures sent' == start + AttemptsNotes(done + [run])
  {
    AttemptsEventsSnoc(done, run);
    AttemptsNotesSnoc(done, run);
    Regroup(prefix, AttemptsEvents(done), AttemptEvents(|done| + 1, run));
    Regroup(start, AttemptsNotes(done), AttemptNotes(run.end));
  }

  class Session {
    /** `window.capturedAudioData` in the current page (`None` for null or undefined). */
    var captured: Option<Payload>
    /** What the driver did, in order. */
    var events: seq<Event>
    /** The `send_telegram_notification` calls, in order. */
    var outbox: seq<Alert>

    constructor ()
      ensures captured == None && events == [] && outbox == []
    {
      captured, events, outbox := None, [], [];
    }

    /** `driver.get` of the booking page: a fresh page has no captured value. */
    method Visit()
      modifies this
      ensures captured == None && events == old(events) + [Navigate(BookingPage)] && outbox == old(outbox)
    {
      captured := None;
      events := events + [Navigate(BookingPage)];
    }

    /** `inject_audio_hooks()`: installs the fetch/XHR interception and clears the slot. */
    method InjectAudioHooks()
      modifies this
      ensures captured == None && events == old(events) + [InjectHooks] && outbox == old(outbox)
    {
      captured := None;
      events := events + [InjectHooks];
    }

    /** `window.capturedAudioData = null`. */
    method ResetCaptured()
      modifies this
      ensures captured == None && events == old(events) + [ResetSlot] && outbox == old(outbox)
    {
      captured := None;
      events := events + [ResetSlot];
    }

    /** `send_telegram_notification(Sent(alert).message, Sent(alert).status)`. */
    method Notify(alert: Alert)
      modifies this
      ensures outbox == old(outbox) + [alert]
      ensures captured == old(captured) && events == old(events)
    {
      outbox := outbox + [alert];
    }

    /**
     * One try of the audio loop: click the audio button, let the hook store
     * what arrives, read and judge the slot, and clear it after a capture
     * rejected as too small or too short while tries remain.
     */
    method AudioTry(w: World, attempt: nat, retry: nat) returns (result: TryResult)
      modifies this
      ensures result == TryOutcome(w.capture(attempt, retry), old(captured))
      ensures captured == NextSlot(w.capture(attempt, retry), retry, old(captured))
      ensures events == old(events) + TryEvents(attempt, retry, result)
      ensures outbox == old(outbox)
    {
      var click := w.capture(attempt, retry);
      if click.ClickRaised? {
        // The source continues, or breaks on the last try: both end this try.
        result := ClickError;
        events := events + [CaptureTry(attempt, retry, result)];
        return;
      }
      // The hook stores the response body when it arrives; the read sees the slot.
      if click.arrived.Some? {
        captured := click.arrived;
      }
      result := Read(Judge(captured));
      events := events + [CaptureTry(attempt, retry, result)];
      if ClearsSlot(result.verdict, retry) {
        ResetCaptured();
      }
    }

    /** The audio-capture loop of `attempt` (up to `MaxAudioRetries` tries). */
    method CaptureAudio(w: World, attempt: nat) returns (accepted: bool)
      modifies this
      ensures var run := CaptureOf(w, attempt, old(captured));
        && accepted == run.accepted && captured == run.slot
        && events == old(events) + CaptureEvents(attempt, run.results)
        && outbox == old(outbox)
    {
      accepted := false;
      ghost var start := captured;
      ghost var done: seq<TryResult> := [];
      ghost var trace: seq<Event> := [];
      var retry := 1;
      while retry <= MaxAudioRetries
        invariant 1 <= retry <= MaxAudioRetries + 1
        invariant |done| == retry - 1
        invariant CaptureAfter(w, attempt, start, retry - 1) == CaptureRun(done, captured, false)
        invariant trace == CaptureEvents(attempt, done)
        invariant events == old(events) + trace
        invariant outbox == old(outbox)
        decreases MaxAudioRetries + 1 - retry
      {
        CaptureStep(w, attempt, start, retry, done, captured);
        var result := AudioTry(w, attempt, retry);
        CaptureEventsSnoc(attempt, done, result);
        Regroup(old(events), trace, TryEvents(attempt, retry, result));
        trace := trace + TryEvents(attempt, retry, result);
        done := done + [result];
        if result == Read(Accepted) {
          accepted := true;
          break;
        }
        retry := retry + 1;
      }
      if accepted {
        CaptureSettled(w, attempt, start, retry, MaxAudioRetries);
      }
    }

    /** One call of the transcription service. */
    method Transcribe(w: World, attempt: nat, retry: nat) returns (raw: Option<string>)
      modifies this
      ensures raw == w.transcribe(attempt, retry)
      ensures events == old(events) + [TranscriptionCall(attempt, retry, raw)]
      ensures captured == old(captured) && outbox == old(outbox)
    {
      raw := w.transcribe(attempt, retry);
      events := events + [TranscriptionCall(attempt, retry, raw)];
    }

    /**
     * The transcription loop of `attempt` (up to `MaxGeminiRetries` calls).
     * Like the source, it returns the last answer: a usable code exactly when
     * the loop found one.
     */
    method DecodeCaptcha(w: World, attempt: nat) returns (code: Option<string>)
      modifies this
      ensures var run := TranscriptionOf(w, attempt);
        && (if run.code.Some? then code == run.code else !Usable(code))
        && events == old(events) + TranscriptionEvents(attempt, run.results)
        && captured == old(captured) && outbox == old(outbox)
    {
      code := None;
      ghost var done: seq<Option<string>> := [];
      ghost var trace: seq<Event> := [];
      var retry := 1;
      while retry <= MaxGeminiRetries
        invariant 1 <= retry <= MaxGeminiRetries + 1
        invariant |done| == retry - 1 && !Usable(code)
        invariant TranscribeAfter(w, attempt, retry - 1) == TranscriptionRun(done, None)
        invariant trace == TranscriptionEvents(attempt, done)
        invariant events == old(events) + trace
        invariant captured == old(captured) && outbox == old(outbox)
        decreases MaxGeminiRetries + 1 - retry
      {
        TranscribeStep(w, attempt, retry, done);
        var raw := Transcribe(w, attempt, retry);
        code := Normalise(raw);
        TranscriptionEventsSnoc(attempt, done, raw);
        Regroup(old(events), trace, [TranscriptionCall(attempt, retry, raw)]);
        trace := trace + [TranscriptionCall(attempt, retry, raw)];
        done := done + [raw];
        if Usable(code) {
          break;
        }
        retry := retry + 1;
      }
      if Usable(code) {
        TranscriptionSettled(w, attempt, retry, MaxGeminiRetries);
      }
    }

    /**
     * Typing the code, clicking submit and classifying where the browser
     * landed; the error notification of the `except` block, and the reload
     * and re-injection that follow an invalid CAPTCHA or an error while
     * attempts remain.
     */
    method Submit(w: World, attempt: nat, code: string) returns (end: AttemptEnd)
      modifies this
      ensures end == SubmissionEnd(w.submit(attempt))
      ensures captured == (if Reloads(end, attempt) then None else old(captured))
      ensures events == old(events) + SubmitEvents(attempt, code, end)
      ensures outbox == old(outbox) + AttemptNotes(end)
    {
      events := events + [TypeCode(attempt, code)];
      var error: Option<string> := None;
      match w.submit(attempt) {
        case SubmitRaised(e) =>
          error := Some(e);
        case Landed(url, page) =>
          if Text.Contains(url, InvalidCaptchaMarker) {
            end := InvalidCaptcha;
          } else {
            match page {
              case PageRaised(e) =>
                error := Some(e);
              case PageText(text) =>
                if Text.Contains(text, NoSlotsPhrase) {
                  end := NoSlots;
                } else {
                  Notify(SlotsAlert);
                  end := SlotsFound;
                }
            }
          }
      }
      if error.Some? {
        var message := SubmitErrorPrefix + error.value;
        Notify(SubmitAlert(message));
        end := SubmitError(message);
      }
      if Reloads(end, attempt) {
        Visit();
        InjectAudioHooks();
      }
    }

    /** One pass of the outer loop: clear the slot, capture, transcribe and submit. */
    method Attempt(w: World, attempt: nat, ghost run: AttemptRun) returns (end: AttemptEnd)
      requires run == AttemptOf(w, attempt)
      modifies this
      ensures end == run.end && captured == SlotAfter(attempt, run)
      ensures events == old(events) + AttemptEvents(attempt, run)
      ensures outbox == old(outbox) + AttemptNotes(run.end)
    {
      ghost var start := events;
      ResetCaptured();
      var accepted := CaptureAudio(w, attempt);
      ghost var trace := [ResetSlot] + CaptureEvents(attempt, run.capture.results);
      Regroup(start, [ResetSlot], CaptureEvents(attempt, run.capture.results));
      if !accepted {
        assert trace + [] + [] == trace;
        return NoAudio;
      }
      var code := DecodeCaptcha(w, attempt);
      Regroup(start, trace, TranscriptionEvents(attempt, run.transcription.results));
      trace := trace + TranscriptionEvents(attempt, run.transcription.results);
      if !Usable(code) {
        assert trace + [] == trace;
        return NoCode;
      }
      end := Submit(w, attempt, code.value);
      Regroup(start, trace, SubmitEvents(attempt, code.value, end));
    }

    /** One invocation of `run`: the outer CAPTCHA loop and its final notification. */
    method RunWorkflow(w: World) returns (outcome: WorkflowOutcome)
      modifies this
      ensures var run := Workflow(w);
        && outcome == run.outcome && captured == run.slot
        && events == old(events) + WorkflowEvents(run)
        && outbox == old(outbox) + WorkflowNotes(run)
    {
      Visit();
      InjectAudioHooks();
      ghost var prefix := events;
      ghost var done: seq<AttemptRun> := [];
      var attempt := 1;
      while attempt <= MaxCaptchaAttempts
        invariant 1 <= attempt <= MaxCaptchaAttempts + 1
        invariant |done| == attempt - 1
        invariant prefix == old(events) + [Navigate(BookingPage), InjectHooks]
        invariant RunAfter(Attempts(w), attempt - 1) == Going(done, captured)
        invariant events == prefix + AttemptsEvents(done)
        invariant outbox == old(outbox) + AttemptsNotes(done)
        decreases MaxCaptchaAttempts + 1 - attempt
      {
        ghost var run := AttemptOf(w, attempt);
        ghost var trace, sent := events, outbox;
        var end := Attempt(w, attempt, run);
        TracesStep(prefix, old(outbox), done, run, trace, events, sent, outbox);
        // An invalid CAPTCHA on the last attempt breaks out of the loop, which
        // is where the loop would end anyway.
        if !Continues(end, attempt) {
          done := done + [run];
          RunSettled(Attempts(w), attempt, MaxCaptchaAttempts);
          Regroup(old(events), [Navigate(BookingPage), InjectHooks], AttemptsEvents(done));
          assert AttemptsNotes(done) + [] == AttemptsNotes(done);
          return Returned(end);
        }
        done := done + [run];
        attempt := attempt + 1;
      }
      Regroup(old(events), [Navigate(BookingPage), InjectHooks], AttemptsEvents(done));
      Notify(ExhaustedAlert);
      Regroup(old(outbox), AttemptsNotes(done), [ExhaustedAlert]);
      outcome := Failure(ExhaustedMessage);
    }
  }

}
