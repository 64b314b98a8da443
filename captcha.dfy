/**
 * The two inner retry loops of one CAPTCHA attempt of `run`: capturing the
 * audio challenge through the page hook, and transcribing it. The outside
 * world (the page, the hook, base64 decoding, the audio metadata reader, the
 * transcription service, the form submission) is a scripted `World`, and
 * each loop is specified by a function that follows it retry by retry.
 */
module Captcha {
  import opened Options
  import Text

  const MaxCaptchaAttempts: nat := 5
  const MaxAudioRetries: nat := 3
  const MaxGeminiRetries: nat := 3
  /** Smallest decoded payload, in bytes, that is not rejected as too small. */
  const MinAudioBytes: nat := 1024

  /** What `base64.b64decode` (and writing the bytes out) makes of a payload. */
  datatype Decoding = Bytes(size: nat) | Undecodable

  /** What the metadata reader says about the saved file's length. */
  datatype Duration =
    | Under1s        // a file object was returned and its length is below one second
    | AtLeast1s      // a length of one second or more, or no file object at all
    | Indeterminate  // reading the metadata raised

  /** A value the hook stored in `window.capturedAudioData`. */
  datatype Payload = Payload(base64: string, decoding: Decoding, duration: Duration)

  /** What one activation of the "speak the code" control led to. */
  datatype Click =
    | ClickRaised                       // locating or clicking the control raised
    | Clicked(arrived: Option<Payload>) // audio that arrived before the read, if any

  /** The page after the submit click; `PageRaised` when reading its text raised. */
  datatype PageRead = PageText(text: string) | PageRaised(error: string)

  /** What typing the code and clicking "Suivant" led to. */
  datatype Submission =
    | SubmitRaised(error: string)
    | Landed(url: string, page: PageRead)

  /**
   * The scripted outside world: the outcome of every capture try and
   * transcription call, indexed by (attempt, retry), and of every submission.
   * `transcribe` gives the raw text the service returned, or `None` when the
   * call failed.
   */
  datatype World = World(
    capture: (nat, nat) -> Click,
    transcribe: (nat, nat) -> Option<string>,
    submit: nat -> Submission)

  /** The verdict on the contents of the slot read back after a click. */
  datatype Verdict = NoData | DecodeError | TooSmall | TooShort | Accepted

  /** The result of one capture try. */
  datatype TryResult = ClickError | Read(verdict: Verdict)

  /**
   * How a captured value is judged: it must be present and
   * non-empty, decode, have at least `MinAudioBytes` bytes and not be known
   * to be shorter than a second (an undeterminable length is accepted).
   */
  function Judge(slot: Option<Payload>): (v: Verdict)
    ensures v == Accepted <==>
      && slot.Some? && slot.value.base64 != ""
      && slot.value.decoding.Bytes? && slot.value.decoding.size >= MinAudioBytes
      && slot.value.duration != Under1s
    ensures v == NoData <==> slot.None? || slot.value.base64 == ""
    ensures v == DecodeError <==> slot.Some? && slot.value.base64 != "" && slot.value.decoding.Undecodable?
    ensures v == TooSmall <==>
      slot.Some? && slot.value.base64 != "" && slot.value.decoding.Bytes? && slot.value.decoding.size < MinAudioBytes
  {
    match slot
    case None => NoData
    case Some(p) =>
      if p.base64 == "" then NoData
      else match p.decoding
        case Undecodable => DecodeError
        case Bytes(n) =>
          if n < MinAudioBytes then TooSmall
          else if p.duration == Under1s then TooShort
          else Accepted
  }

  /** A rejection after which the slot is reset: too small or too short with retries left. */
  predicate ClearsSlot(v: Verdict, retry: nat) {
    (v == TooSmall || v == TooShort) && retry < MaxAudioRetries
  }

  /** The slot as read after a click: an arriving payload replaces it, otherwise it is kept. */
  function AfterArrival(slot: Option<Payload>, arrived: Option<Payload>): Option<Payload> {
    if arrived.Some? then arrived else slot
  }

  /** The slot the next try starts from. */
  function NextSlot(click: Click, retry: nat, slot: Option<Payload>): Option<Payload> {
    match click
    case ClickRaised => slot
    case Clicked(arrived) =>
      var seen := AfterArrival(slot, arrived);
      if ClearsSlot(Judge(seen), retry) then None else seen
  }

  /**
   * Where a try leaves the slot: a click error leaves it as it was; after a
   * click, a non-empty slot is emptied exactly when its contents are
   * rejected as too small or too short with retries left, and otherwise the
   * slot is what the read saw.
   */
  lemma SlotClearedOnlyOnRejection(click: Click, retry: nat, slot: Option<Payload>)
    ensures click.ClickRaised? ==> NextSlot(click, retry, slot) == slot
    ensures click.Clicked? ==>
      var seen := AfterArrival(slot, click.arrived);
      && (seen.Some? && NextSlot(click, retry, slot) == None <==> ClearsSlot(Judge(seen), retry))
      && (!ClearsSlot(Judge(seen), retry) ==> NextSlot(click, retry, slot) == seen)
  {
  }

  /** What one try of the audio loop reports, given the slot before the click. */
  function TryOutcome(click: Click, slot: Option<Payload>): (r: TryResult)
    ensures r == ClickError <==> click.ClickRaised?
  {
    match click
    case ClickRaised => ClickError
    case Clicked(arrived) => Read(Judge(AfterArrival(slot, arrived)))
  }

  /**
   * The audio loop after a number of tries: the result of each try, the
   * slot, and whether a capture was accepted, which ends the loop.
   */
  datatype CaptureRun = CaptureRun(results: seq<TryResult>, slot: Option<Payload>, accepted: bool)

  /** The audio-capture loop of `attempt` after `tries` tries, started with `start` in the page. */
  function CaptureAfter(w: World, attempt: nat, start: Option<Payload>, tries: nat): CaptureRun
    requires tries <= MaxAudioRetries
    decreases tries
  {
    if tries == 0 then CaptureRun([], start, false)
    else
      var prev := CaptureAfter(w, attempt, start, tries - 1);
      if prev.accepted then prev
      else
        var click := w.capture(attempt, tries);
        var r := TryOutcome(click, prev.slot);
        CaptureRun(prev.results + [r], NextSlot(click, tries, prev.slot), r == Read(Accepted))
  }

  /** The whole audio-capture loop of `attempt`. */
  function CaptureOf(w: World, attempt: nat, start: Option<Payload>): CaptureRun {
    CaptureAfter(w, attempt, start, MaxAudioRetries)
  }

  /** One more try of a loop that has accepted nothing yet. */
  lemma CaptureStep(w: World, attempt: nat, start: Option<Payload>, tries: nat, done: seq<TryResult>, slot: Option<Payload>)
    requires 1 <= tries <= MaxAudioRetries
    requires CaptureAfter(w, attempt, start, tries - 1) == CaptureRun(done, slot, false)
    ensures var click := w.capture(attempt, tries);
      var r := TryOutcome(click, slot);
      CaptureAfter(w, attempt, start, tries) == CaptureRun(done + [r], NextSlot(click, tries, slot), r == Read(Accepted))
  {
  }

  /** Once a capture is accepted the loop has stopped: later tries change nothing. */
  lemma {:induction false} CaptureSettled(w: World, attempt: nat, start: Option<Payload>, tries: nat, later: nat)
    requires tries <= later <= MaxAudioRetries
    requires CaptureAfter(w, attempt, start, tries).accepted
    ensures CaptureAfter(w, attempt, start, later) == CaptureAfter(w, attempt, start, tries)
    decreases later
  {
    if later > tries {
      CaptureSettled(w, attempt, start, tries, later - 1);
    }
  }

  /**
   * The audio loop makes one try per retry until the first accepted
   * capture: no earlier try was accepted, it stops exactly when one is, and
   * without an accepted capture it makes every try.
   */
  lemma {:induction false} CaptureStopsAtFirstAcceptance(w: World, attempt: nat, start: Option<Payload>, tries: nat)
    requires tries <= MaxAudioRetries
    ensures var run := CaptureAfter(w, attempt, start, tries);
      && |run.results| <= tries
      && (tries > 0 ==> |run.results| >= 1)
      && (forall k :: 0 <= k < |run.results| - 1 ==> run.results[k] != Read(Accepted))
      && (run.accepted <==> run.results != [] && run.results[|run.results| - 1] == Read(Accepted))
      && (!run.accepted ==> |run.results| == tries)
    decreases tries
  {
    if tries > 0 {
      CaptureStopsAtFirstAcceptance(w, attempt, start, tries - 1);
    }
  }

  /** An accepted capture is what the slot holds at the end, and it passes `Judge`. */
  lemma {:induction false} AcceptedCaptureIsJudged(w: World, attempt: nat, start: Option<Payload>, tries: nat)
    requires tries <= MaxAudioRetries
    ensures var run := CaptureAfter(w, attempt, start, tries);
      run.accepted ==> Judge(run.slot) == Accepted
    decreases tries
  {
    if tries > 0 {
      AcceptedCaptureIsJudged(w, attempt, start, tries - 1);
    }
  }

  /** A click error is reported exactly for the tries whose click raised. */
  lemma {:induction false} ClickErrorsAreRaisedClicks(w: World, attempt: nat, start: Option<Payload>, tries: nat)
    requires tries <= MaxAudioRetries
    ensures var run := CaptureAfter(w, attempt, start, tries);
      forall k :: 0 <= k < |run.results| ==> (run.results[k] == ClickError <==> w.capture(attempt, k + 1).ClickRaised?)
    decreases tries
  {
    if tries > 0 {
      ClickErrorsAreRaisedClicks(w, attempt, start, tries - 1);
      CaptureStopsAtFirstAcceptance(w, attempt, start, tries - 1);
    }
  }

  /**
   * What a try reads when no new audio arrives: after a try that ended in no
   * data or a decode error the slot was kept, so the same verdict comes
   * again; after a too-small or too-short rejection with retries left the
   * slot was reset, so the next try finds no data.
   */
  lemma SlotKeptUnlessRejected(w: World, attempt: nat, start: Option<Payload>, tries: nat)
    requires 1 <= tries < MaxAudioRetries
    requires var run := CaptureAfter(w, attempt, start, tries);
      !run.accepted && run.results != [] && run.results[|run.results| - 1].Read?
    requires w.capture(attempt, tries + 1) == Clicked(None)
    ensures var run := CaptureAfter(w, attempt, start, tries);
      var last := run.results[|run.results| - 1];
      CaptureAfter(w, attempt, start, tries + 1).results
        == run.results + [if last == Read(TooSmall) || last == Read(TooShort) then Read(NoData) else last]
  {
    CaptureStopsAtFirstAcceptance(w, attempt, start, tries - 1);
  }

  /** `solve_captcha`'s result: the stripped text, or `None` when the call failed. */
  function Normalise(raw: Option<string>): (code: Option<string>)
    ensures code.Some? <==> raw.Some?
    ensures code.Some? ==> code.value == Text.Strip(raw.value)
  {
    match raw
    case None => None
    case Some(t) => Some(Text.Strip(t))
  }

  /** Python truthiness of `code`: present and not empty. */
  predicate Usable(code: Option<string>) {
    code.Some? && code.value != ""
  }

  /**
   * What `solve_captcha` returns is the service's answer with its whitespace
   * cut off at both ends and nothing else: a slice of the answer with only
   * whitespace around it, neither starting nor ending with whitespace.
   */
  lemma NormaliseTrims(raw: Option<string>)
    ensures var code := Normalise(raw);
      && (code.Some? <==> raw.Some?)
      && (code.Some? ==> exists i :: Text.TrimmedAt(raw.value, code.value, i))
      && (code.Some? && code.value != [] ==> !Text.IsSpace(code.value[0]) && !Text.IsSpace(code.value[|code.value| - 1]))
  {
    if raw.Some? { Text.StripIsTrimmedSlice(raw.value); }
  }

  /** A transcription is usable exactly when the service answered with something other than whitespace. */
  lemma UsableIffNotBlank(raw: Option<string>)
    ensures Usable(Normalise(raw)) <==> raw.Some? && !Text.AllSpace(raw.value)
  {
    if raw.Some? { Text.StripEmptyIffAllSpace(raw.value); }
  }

  /**
   * The transcription loop after a number of calls: what each call returned
   * and the code, present once a call gave a usable one, which ends the loop.
   */
  datatype TranscriptionRun = TranscriptionRun(results: seq<Option<string>>, code: Option<string>)

  /** The transcription loop of `attempt` after `calls` calls. */
  function TranscribeAfter(w: World, attempt: nat, calls: nat): TranscriptionRun
    requires calls <= MaxGeminiRetries
    decreases calls
  {
    if calls == 0 then TranscriptionRun([], None)
    else
      var prev := TranscribeAfter(w, attempt, calls - 1);
      if prev.code.Some? then prev
      else
        var raw := w.transcribe(attempt, calls);
        var got := Normalise(raw);
        TranscriptionRun(prev.results + [raw], if Usable(got) then got else None)
  }

  /** The whole transcription loop of `attempt`. */
  function TranscriptionOf(w: World, attempt: nat): TranscriptionRun {
    TranscribeAfter(w, attempt, MaxGeminiRetries)
  }

  /** One more call of a loop that has found nothing yet. */
  lemma TranscribeStep(w: World, attempt: nat, calls: nat, done: seq<Option<string>>)
    requires 1 <= calls <= MaxGeminiRetries
    requires TranscribeAfter(w, attempt, calls - 1) == TranscriptionRun(done, None)
    ensures var got := Normalise(w.transcribe(attempt, calls));
      TranscribeAfter(w, attempt, calls)
        == TranscriptionRun(done + [w.transcribe(attempt, calls)], if Usable(got) then got else None)
  {
  }

  /** Once a usable code is found the loop has stopped: later calls change nothing. */
  lemma {:induction false} TranscriptionSettled(w: World, attempt: nat, calls: nat, later: nat)
    requires calls <= later <= MaxGeminiRetries
    requires TranscribeAfter(w, attempt, calls).code.Some?
    ensures TranscribeAfter(w, attempt, later) == TranscribeAfter(w, attempt, calls)
    decreases later
  {
    if later > calls {
      TranscriptionSettled(w, attempt, calls, later - 1);
    }
  }

  /**
   * The code is the first usable (non-empty once stripped) transcription:
   * the calls are made in order, every call before it gave nothing usable,
   * the loop stops right after it, and when no call gives a usable code
   * every call is made and there is no code.
   */
  lemma {:induction false} FirstUsableTranscription(w: World, attempt: nat, calls: nat)
    requires calls <= MaxGeminiRetries
    ensures var run := TranscribeAfter(w, attempt, calls);
      && |run.results| <= calls
      && (calls > 0 ==> |run.results| >= 1)
      && (forall k :: 0 <= k < |run.results| ==> run.results[k] == w.transcribe(attempt, k + 1))
      && (forall k :: 0 <= k < |run.results| - 1 ==> !Usable(Normalise(run.results[k])))
      && (run.code.Some? <==> run.results != [] && Usable(Normalise(run.results[|run.results| - 1])))
      && (run.code.Some? ==> run.code == Normalise(run.results[|run.results| - 1]))
      && (run.code.None? ==> |run.results| == calls)
    decreases calls
  {
    if calls > 0 {
      FirstUsableTranscription(w, attempt, calls - 1);
    }
  }

  /** One entry of the run's trace: a driver action, or the result of a capture try or transcription call. */
  datatype Event =
    | Navigate(url: string)                                      // driver.get
    | InjectHooks                                                // inject_audio_hooks(): the slot becomes null
    | ResetSlot                                                  // window.capturedAudioData = null
    | CaptureTry(attempt: nat, retry: nat, result: TryResult)
    | TranscriptionCall(attempt: nat, retry: nat, answer: Option<string>)
    | TypeCode(attempt: nat, code: string)                       // the code typed into the CAPTCHA field

  /** The trace of one capture try: its result, then the reset when the rejection leaves retries. */
  function TryEvents(attempt: nat, retry: nat, result: TryResult): seq<Event> {
    [CaptureTry(attempt, retry, result)] + (if result.Read? && ClearsSlot(result.verdict, retry) then [ResetSlot] else [])
  }

  /** The trace of the capture tries `results`, numbered from 1. */
  function CaptureEvents(attempt: nat, results: seq<TryResult>): seq<Event>
    decreases |results|
  {
    if results == [] then []
    else CaptureEvents(attempt, results[..|results| - 1]) + TryEvents(attempt, |results|, results[|results| - 1])
  }

  /** The trace of the transcription calls whose answers are `results`, numbered from 1. */
  function TranscriptionEvents(attempt: nat, results: seq<Option<string>>): seq<Event>
    decreases |results|
  {
    if results == [] then []
    else TranscriptionEvents(attempt, results[..|results| - 1]) + [TranscriptionCall(attempt, |results|, results[|results| - 1])]
  }

  lemma CaptureEventsSnoc(attempt: nat, done: seq<TryResult>, result: TryResult)
    ensures CaptureEvents(attempt, done + [result]) == CaptureEvents(attempt, done) + TryEvents(attempt, |done| + 1, result)
  {
    var all := done + [result];
    assert all[..|all| - 1] == done;
  }

  lemma TranscriptionEventsSnoc(attempt: nat, done: seq<Option<string>>, answer: Option<string>)
    ensures TranscriptionEvents(attempt, done + [answer])
         == TranscriptionEvents(attempt, done) + [TranscriptionCall(attempt, |done| + 1, answer)]
  {
    var all := done + [answer];
    assert all[..|all| - 1] == done;
  }

  /** The capture loop's trace holds only its tries and the resets after rejections. */
  lemma {:induction false} CaptureEventsKinds(attempt: nat, results: seq<TryResult>)
    ensures forall e :: e in CaptureEvents(attempt, results) ==> e.CaptureTry? || e == ResetSlot
    decreases |results|
  {
    if results != [] {
      CaptureEventsKinds(attempt, results[..|results| - 1]);
    }
  }

  /**
   * Where the resets sit in a capture trace: a reset comes right after a try
   * whose capture was rejected as too small or too short with tries left,
   * and such a try is followed by a reset while no other try is.
   */
  ghost predicate ResetsFollowRejections(t: seq<Event>) {
    && (forall j {:trigger t[j]} :: 0 < j < |t| && t[j] == ResetSlot ==>
          t[j - 1].CaptureTry? && t[j - 1].result.Read? && ClearsSlot(t[j - 1].result.verdict, t[j - 1].retry))
    && (t != [] ==> t[0] != ResetSlot)
    && (forall j {:trigger t[j]} :: 0 <= j < |t| && t[j].CaptureTry? ==>
          (t[j].result.Read? && ClearsSlot(t[j].result.verdict, t[j].retry) <==> j + 1 < |t| && t[j + 1] == ResetSlot))
  }

  /** The capture loop resets the slot exactly after the rejections that call for it. */
  lemma {:induction false} CaptureEventsResets(attempt: nat, results: seq<TryResult>)
    ensures ResetsFollowRejections(CaptureEvents(attempt, results))
    decreases |results|
  {
    if results != [] {
      var before := results[..|results| - 1];
      CaptureEventsResets(attempt, before);
      var prev := CaptureEvents(attempt, before);
      var r := results[|results| - 1];
      var clears := r.Read? && ClearsSlot(r.verdict, |results|);
      var last := TryEvents(attempt, |results|, r);
      var t := CaptureEvents(attempt, results);
      assert t == prev + last;
      assert last[0] == CaptureTry(attempt, |results|, r);
      assert |last| == (if clears then 2 else 1);
      assert clears ==> last[1] == ResetSlot;
      forall j | 0 < j < |t| && t[j] == ResetSlot
        ensures t[j - 1].CaptureTry? && t[j - 1].result.Read? && ClearsSlot(t[j - 1].result.verdict, t[j - 1].retry)
      {
        if j < |prev| {
          assert t[j] == prev[j] && t[j - 1] == prev[j - 1];
        } else {
          assert t[j] == last[j - |prev|];
          assert j == |prev| + 1 && clears && t[j - 1] == last[0];
        }
      }
      forall j | 0 <= j < |t| && t[j].CaptureTry?
        ensures t[j].result.Read? && ClearsSlot(t[j].result.verdict, t[j].retry) <==> j + 1 < |t| && t[j + 1] == ResetSlot
      {
        if j + 1 < |prev| {
          assert t[j] == prev[j] && t[j + 1] == prev[j + 1];
        } else if j + 1 == |prev| {
          assert t[j] == prev[j] && t[j + 1] == last[0];
        } else {
          assert j == |prev| && t[j] == last[0];
          if clears { assert t[j + 1] == last[1]; }
        }
      }
      if prev != [] { assert t[0] == prev[0]; } else { assert t[0] == last[0]; }
    }
  }

  /** The transcription loop's trace holds only its calls. */
  lemma {:induction false} TranscriptionEventsKinds(attempt: nat, results: seq<Option<string>>)
    ensures forall e :: e in TranscriptionEvents(attempt, results) ==> e.TranscriptionCall?
    decreases |results|
  {
    if results != [] {
      TranscriptionEventsKinds(attempt, results[..|results| - 1]);
    }
  }

}
