/**
 * The outer CAPTCHA loop of `run`: one attempt is a capture loop, a
 * transcription loop and a submission; its ending decides whether the page is
 * reloaded, whether a notification is sent and whether the loop goes on. The
 * whole run is specified by `Workflow`, a function of the scripted world.
 */
module Flow {
  import opened Options
  import opened Captcha
  import Text
  import opened Notifier

  const BookingPage: string := "https://www.rdv-prefecture.interieur.gouv.fr/rdvpref/reservation/demarche/9040/cgu/"
  const InvalidCaptchaMarker: string := "error=invalidCaptcha"
  const NoSlotsPhrase: string := "Aucun cr\U{E9}neau disponible"
  const SubmitErrorPrefix: string := "Error during captcha submission: "
  const ExhaustedMessage: string := "Failed to solve captcha after all attempts"
  const NoSlotsMessage: string := "No time slots available"
  const SlotsMessage: string := "Potential slots detected!"
  const SlotsNotice: string :=
    WarningEmoji + " **Potential Slot Available!**\n\nThe page content is different from usual. "
    + "There might be available slots!\n\nPlease check: https://www.rdv-prefecture.interieur.gouv.fr/"

  /** The dictionary `run` returns. */
  datatype WorkflowOutcome = Success(slotsAvailable: bool, message: string) | Failure(error: string)

  /** How one CAPTCHA attempt ended. */
  datatype AttemptEnd =
    | NoAudio                   // the audio loop accepted nothing
    | NoCode                    // the transcription loop gave no usable code
    | InvalidCaptcha            // the site redirected with the invalid-CAPTCHA marker
    | SubmitError(message: string)  // submitting or inspecting the result raised
    | NoSlots                   // validated, and the page says there is no slot
    | SlotsFound                // validated, and the page says something else

  /** Classification of the page reached after the submit click, by substring tests. */
  function SubmissionEnd(s: Submission): AttemptEnd {
    match s
    case SubmitRaised(error) => SubmitError(SubmitErrorPrefix + error)
    case Landed(url, page) =>
      if Text.Contains(url, InvalidCaptchaMarker) then InvalidCaptcha
      else match page
        case PageRaised(error) => SubmitError(SubmitErrorPrefix + error)
        case PageText(text) => if Text.Contains(text, NoSlotsPhrase) then NoSlots else SlotsFound
  }

  /**
   * A submission is an invalid CAPTCHA exactly when the marker occurs in
   * the URL reached; otherwise the page shows no slot exactly when the
   * phrase occurs in its text, and anything else it shows is a potential
   * slot; an exception while submitting or reading the page is an error
   * whose message is the prefix followed by the exception's text.
   */
  lemma SubmissionClassified(s: Submission)
    ensures var e := SubmissionEnd(s);
      && e != NoAudio && e != NoCode
      && (e == InvalidCaptcha <==> s.Landed? && Text.OccursIn(InvalidCaptchaMarker, s.url))
      && (e == NoSlots <==>
            && s.Landed? && !Text.OccursIn(InvalidCaptchaMarker, s.url)
            && s.page.PageText? && Text.OccursIn(NoSlotsPhrase, s.page.text))
      && (e == SlotsFound <==>
            && s.Landed? && !Text.OccursIn(InvalidCaptchaMarker, s.url)
            && s.page.PageText? && !Text.OccursIn(NoSlotsPhrase, s.page.text))
      && (e.SubmitError? ==> SubmitErrorPrefix <= e.message)
      && (s.SubmitRaised? ==> e == SubmitError(SubmitErrorPrefix + s.error))
      && (s.Landed? && s.page.PageRaised? && !Text.OccursIn(InvalidCaptchaMarker, s.url) ==>
            e == SubmitError(SubmitErrorPrefix + s.page.error))
  {
    if s.Landed? {
      Text.ContainsIffOccurs(s.url, InvalidCaptchaMarker);
      if s.page.PageText? {
        Text.ContainsIffOccurs(s.page.text, NoSlotsPhrase);
      }
    }
  }

  /** What one attempt did: its audio loop, its transcription loop (empty when not reached) and its ending. */
  datatype AttemptRun = AttemptRun(capture: CaptureRun, transcription: TranscriptionRun, end: AttemptEnd)

  /** Attempt number `attempt`; it starts from an empty slot, which the attempt resets first. */
  function AttemptOf(w: World, attempt: nat): AttemptRun {
    var capture := CaptureOf(w, attempt, None);
    if !capture.accepted then AttemptRun(capture, TranscriptionRun([], None), NoAudio)
    else
      var transcription := TranscriptionOf(w, attempt);
      if transcription.code.None? then AttemptRun(capture, transcription, NoCode)
      else AttemptRun(capture, transcription, SubmissionEnd(w.submit(attempt)))
  }

  /** The endings after which the page is reloaded and the hooks re-injected: only while attempts remain. */
  predicate Reloads(end: AttemptEnd, attempt: nat) {
    (end == InvalidCaptcha || end.SubmitError?) && attempt < MaxCaptchaAttempts
  }

  /** The endings after which the outer loop goes on to the next attempt (or runs out). */
  predicate Continues(end: AttemptEnd, attempt: nat) {
    match end
    case NoAudio => true
    case NoCode => true
    case InvalidCaptcha => true
    case SubmitError(_) => attempt < MaxCaptchaAttempts
    case NoSlots => false
    case SlotsFound => false
  }

  /** The endings that went through the submission step. */
  predicate Submitted(end: AttemptEnd) {
    !end.NoAudio? && !end.NoCode?
  }

  /** The slot after an attempt: what the audio loop left, or empty after a reload. */
  function SlotAfter(attempt: nat, run: AttemptRun): Option<Payload> {
    if Reloads(run.end, attempt) then None else run.capture.slot
  }

  /** The value `run` returns when an attempt ends the loop with a `return`. */
  function Returned(end: AttemptEnd): WorkflowOutcome {
    match end
    case NoSlots => Success(false, NoSlotsMessage)
    case SlotsFound => Success(true, SlotsMessage)
    case SubmitError(m) => Failure(m)
    case _ => Failure(ExhaustedMessage)
  }

  /** The whole run: its attempts in order, the final slot, the outcome, and whether the loop ran out. */
  datatype WorkflowRun = WorkflowRun(attempts: seq<AttemptRun>, slot: Option<Payload>, outcome: WorkflowOutcome, exhausted: bool)

  /** The outer loop after some attempts: still going, with the slot the page holds, or ended by a `return`. */
  datatype Progress = Going(attempts: seq<AttemptRun>, slot: Option<Payload>) | Ended(run: WorkflowRun)

  /** Attempt number `attempt` of the run on `w`, for each number. */
  function Attempts(w: World): nat -> AttemptRun {
    (attempt: nat) => AttemptOf(w, attempt)
  }

  /** The outer loop after `attempts` attempts, where `step` gives each attempt. */
  function RunAfter(step: nat -> AttemptRun, attempts: nat): Progress
    requires attempts <= MaxCaptchaAttempts
    decreases attempts
  {
    if attempts == 0 then Going([], None)
    else match RunAfter(step, attempts - 1)
      case Ended(run) => Ended(run)
      case Going(done, _) =>
        var run := step(attempts);
        var after := SlotAfter(attempts, run);
        if Continues(run.end, attempts) then Going(done + [run], after)
        else Ended(WorkflowRun(done + [run], after, Returned(run.end), false))
  }

  /** The whole outer loop: the return of some attempt, or the exhaustion failure. */
  function OuterLoop(step: nat -> AttemptRun): WorkflowRun {
    match RunAfter(step, MaxCaptchaAttempts)
    case Ended(run) => run
    case Going(done, slot) => WorkflowRun(done, slot, Failure(ExhaustedMessage), true)
  }

  /** One invocation of `run`, after the booking page is loaded and the hooks injected. */
  function Workflow(w: World): WorkflowRun {
    OuterLoop(Attempts(w))
  }

  /** Once an attempt returned, later attempts are never made. */
  lemma {:induction false} RunSettled(step: nat -> AttemptRun, attempts: nat, later: nat)
    requires attempts <= later <= MaxCaptchaAttempts
    requires RunAfter(step, attempts).Ended?
    ensures RunAfter(step, later) == RunAfter(step, attempts)
    decreases later
  {
    if later > attempts {
      RunSettled(step, attempts, later - 1);
    }
  }

  // ---------------------------------------------------------------------
  // The traces a run leaves: driver events and notifications
  // ---------------------------------------------------------------------

  /** The driver trace of attempt `attempt`. */
  function AttemptEvents(attempt: nat, run: AttemptRun): seq<Event> {
    [ResetSlot]
    + CaptureEvents(attempt, run.capture.results)
    + TranscriptionEvents(attempt, run.transcription.results)
    + (if Submitted(run.end) && run.transcription.code.Some? then SubmitEvents(attempt, run.transcription.code.value, run.end) else [])
  }

  /** The driver trace of the submission step: typing the code, then the reload if there is one. */
  function SubmitEvents(attempt: nat, code: string, end: AttemptEnd): seq<Event> {
    [TypeCode(attempt, code)] + (if Reloads(end, attempt) then [Navigate(BookingPage), InjectHooks] else [])
  }

  /** The driver trace of the attempts `runs`, numbered from 1. */
  function AttemptsEvents(runs: seq<AttemptRun>): seq<Event>
    decreases |runs|
  {
    if runs == [] then []
    else AttemptsEvents(runs[..|runs| - 1]) + AttemptEvents(|runs|, runs[|runs| - 1])
  }

  /** The driver trace of a whole run, from the first navigation on. */
  function WorkflowEvents(run: WorkflowRun): seq<Event> {
    [Navigate(BookingPage), InjectHooks] + AttemptsEvents(run.attempts)
  }

  /**
   * The three notifications `run` sends. Which one is sent is decided by
   * the run; `Sent` gives the status and the text that go to
   * `send_telegram_notification`.
   */
  datatype Alert = SlotsAlert | SubmitAlert(message: string) | ExhaustedAlert

  function Sent(a: Alert): (n: Notification)
    ensures n.status == (if a.SlotsAlert? then "warning" else "error")
  {
    match a
    case SlotsAlert => Notification("warning", SlotsNotice)
    case SubmitAlert(m) => Notification("error", m)
    case ExhaustedAlert => Notification("error", ExhaustedMessage)
  }

  /** The notifications sent during an attempt. */
  function AttemptNotes(end: AttemptEnd): seq<Alert> {
    match end
    case SubmitError(m) => [SubmitAlert(m)]
    case SlotsFound => [SlotsAlert]
    case _ => []
  }

  function AttemptsNotes(runs: seq<AttemptRun>): seq<Alert>
    decreases |runs|
  {
    if runs == [] then []
    else AttemptsNotes(runs[..|runs| - 1]) + AttemptNotes(runs[|runs| - 1].end)
  }

  /** The notifications of a whole run: those of its attempts, then the final one if the loop ran out. */
  function WorkflowNotes(run: WorkflowRun): seq<Alert> {
    AttemptsNotes(run.attempts) + (if run.exhausted then [ExhaustedAlert] else [])
  }

  lemma AttemptsEventsSnoc(done: seq<AttemptRun>, run: AttemptRun)
    ensures AttemptsEvents(done + [run]) == AttemptsEvents(done) + AttemptEvents(|done| + 1, run)
  {
    var all := done + [run];
    assert all != [];
    assert all[..|all| - 1] == done && all[|all| - 1] == run && |all| == |done| + 1;
  }

  lemma AttemptsNotesSnoc(done: seq<AttemptRun>, run: AttemptRun)
    ensures AttemptsNotes(done + [run]) == AttemptsNotes(done) + AttemptNotes(run.end)
  {
    var all := done + [run];
    assert all[..|all| - 1] == done;
  }

  // ---------------------------------------------------------------------
  // What a run guarantees
  // ---------------------------------------------------------------------

  /** `runs` are the attempts `step` gives for 1, 2, ..., in order. */
  predicate InOrder(step: nat -> AttemptRun, runs: seq<AttemptRun>) {
    forall i :: 0 <= i < |runs| ==> runs[i] == step(i + 1)
  }

  /** The outer loop makes the attempts in order; every attempt but a returning last one went on. */
  lemma {:induction false} RunShape(step: nat -> AttemptRun, n: nat)
    requires n <= MaxCaptchaAttempts
    ensures RunAfter(step, n).Going? ==>
      var done := RunAfter(step, n).attempts;
      && |done| == n && InOrder(step, done)
      && (forall i :: 0 <= i < n ==> Continues(done[i].end, i + 1))
      && RunAfter(step, n).slot == (if n == 0 then None else SlotAfter(n, done[n - 1]))
    ensures RunAfter(step, n).Ended? ==>
      var run := RunAfter(step, n).run;
      var k := |run.attempts|;
      && 1 <= k <= n && InOrder(step, run.attempts)
      && (forall i :: 0 <= i < k - 1 ==> Continues(run.attempts[i].end, i + 1))
      && !Continues(run.attempts[k - 1].end, k)
      && run.outcome == Returned(run.attempts[k - 1].end) && !run.exhausted
      && run.slot == SlotAfter(k, run.attempts[k - 1])
    decreases n
  {
    if n > 0 {
      RunShape(step, n - 1);
      if RunAfter(step, n - 1).Going? {
        var done := RunAfter(step, n - 1).attempts;
        var all := done + [step(n)];
        assert forall i :: 0 <= i < n - 1 ==> all[i] == done[i];
      }
    }
  }

  /** When the first attempt returns, the run is that attempt alone. */
  lemma FirstAttemptReturns(step: nat -> AttemptRun)
    requires !Continues(step(1).end, 1)
    ensures OuterLoop(step) == WorkflowRun([step(1)], SlotAfter(1, step(1)), Returned(step(1).end), false)
  {
    RunSettled(step, 1, MaxCaptchaAttempts);
  }

  /**
   * A run decided the way the outer loop decides: between one and
   * `MaxCaptchaAttempts` attempts, every attempt but the last went on, the
   * run ran out exactly when the last would have gone on too (which only
   * happens on the last allowed attempt), and otherwise it returns what the
   * last attempt decided.
   */
  predicate Decided(run: WorkflowRun) {
    var k := |run.attempts|;
    && 1 <= k <= MaxCaptchaAttempts
    && (forall i :: 0 <= i < k - 1 ==> Continues(run.attempts[i].end, i + 1))
    && (run.exhausted <==> Continues(run.attempts[k - 1].end, k))
    && (run.exhausted ==> k == MaxCaptchaAttempts && run.outcome == Failure(ExhaustedMessage))
    && (!run.exhausted ==> run.outcome == Returned(run.attempts[k - 1].end))
    && run.slot == SlotAfter(k, run.attempts[k - 1])
  }

  /** The outer loop makes the attempts `step` gives, in order, and decides its run as `Decided` says. */
  lemma OuterLoopShape(step: nat -> AttemptRun)
    ensures InOrder(step, OuterLoop(step).attempts) && Decided(OuterLoop(step))
  {
    RunShape(step, MaxCaptchaAttempts);
  }

  /** The run on `w` is the outer loop over its attempts, numbered from 1. */
  lemma WorkflowShape(w: World)
    ensures Decided(Workflow(w))
    ensures forall i :: 0 <= i < |Workflow(w).attempts| ==> Workflow(w).attempts[i] == AttemptOf(w, i + 1)
  {
    OuterLoopShape(Attempts(w));
  }

  /**
   * An attempt that went through its stages in order: it transcribes only
   * after an accepted capture, and it submits exactly when both the capture
   * and the transcription succeeded.
   */
  predicate Staged(r: AttemptRun) {
    && (r.end == NoAudio <==> !r.capture.accepted)
    && (r.end == NoAudio ==> r.transcription == TranscriptionRun([], None))
    && (r.end == NoCode <==> r.capture.accepted && r.transcription.code.None?)
    && (Submitted(r.end) <==> r.capture.accepted && r.transcription.code.Some?)
  }

  /**
   * What one attempt does: it goes through its stages in order, keeps each
   * loop within its retries, submits only an accepted capture's usable
   * code, and classifies the submission by `SubmissionEnd`.
   */
  lemma AttemptFacts(w: World, attempt: nat)
    ensures var r := AttemptOf(w, attempt);
      && Staged(r)
      && 1 <= |r.capture.results| <= MaxAudioRetries
      && |r.transcription.results| <= MaxGeminiRetries
      && (r.capture.accepted ==> Judge(r.capture.slot) == Accepted && |r.transcription.results| >= 1)
      && (Submitted(r.end) ==> Usable(r.transcription.code) && r.end == SubmissionEnd(w.submit(attempt)))
  {
    CaptureStopsAtFirstAcceptance(w, attempt, None, MaxAudioRetries);
    AcceptedCaptureIsJudged(w, attempt, None, MaxAudioRetries);
    FirstUsableTranscription(w, attempt, MaxGeminiRetries);
  }

  /**
   * The trace of an attempt starts by clearing the slot; the booking page
   * is reloaded and the hooks re-injected exactly when the ending calls for
   * it; and the code typed is the transcription's code, typed exactly when
   * the attempt reached the submission.
   */
  lemma AttemptTrace(attempt: nat, r: AttemptRun)
    requires Staged(r)
    ensures var t := AttemptEvents(attempt, r);
      && t != [] && t[0] == ResetSlot
      && (InjectHooks in t <==> Reloads(r.end, attempt))
      && (Navigate(BookingPage) in t <==> Reloads(r.end, attempt))
      && (forall c :: TypeCode(attempt, c) in t <==> Submitted(r.end) && r.transcription.code == Some(c))
  {
    CaptureEventsKinds(attempt, r.capture.results);
    TranscriptionEventsKinds(attempt, r.transcription.results);
  }

  /** Pieces that do not hold `x` add nothing to its count. */
  lemma CountPastAbsent<T>(a: seq<T>, b: seq<T>, c: seq<T>, d: seq<T>, x: T)
    requires x !in a && x !in b && x !in c
    ensures multiset(a + b + c + d)[x] == multiset(d)[x]
  {
    assert multiset(a + b + c + d) == multiset(a) + multiset(b) + multiset(c) + multiset(d);
  }

  /** The submission step reloads the page and re-injects the hooks once each exactly when the ending calls for it. */
  lemma SubmitEventsReload(attempt: nat, code: string, end: AttemptEnd)
    ensures multiset(SubmitEvents(attempt, code, end))[InjectHooks] == (if Reloads(end, attempt) then 1 else 0)
    ensures multiset(SubmitEvents(attempt, code, end))[Navigate(BookingPage)] == (if Reloads(end, attempt) then 1 else 0)
  {
    if Reloads(end, attempt) {
      assert SubmitEvents(attempt, code, end) == [TypeCode(attempt, code), Navigate(BookingPage), InjectHooks];
    } else {
      assert SubmitEvents(attempt, code, end) == [TypeCode(attempt, code)];
    }
  }

  /** A reloading attempt reloads the page and re-injects the hooks once each; any other does neither. */
  lemma AttemptReloadsOnce(attempt: nat, r: AttemptRun)
    requires Staged(r)
    ensures var t := AttemptEvents(attempt, r);
      && multiset(t)[InjectHooks] == (if Reloads(r.end, attempt) then 1 else 0)
      && multiset(t)[Navigate(BookingPage)] == (if Reloads(r.end, attempt) then 1 else 0)
  {
    var capture := CaptureEvents(attempt, r.capture.results);
    var calls := TranscriptionEvents(attempt, r.transcription.results);
    CaptureEventsKinds(attempt, r.capture.results);
    TranscriptionEventsKinds(attempt, r.transcription.results);
    var e := if Submitted(r.end) && r.transcription.code.Some? then SubmitEvents(attempt, r.transcription.code.value, r.end) else [];
    if Submitted(r.end) {
      SubmitEventsReload(attempt, r.transcription.code.value, r.end);
    }
    assert AttemptEvents(attempt, r) == [ResetSlot] + capture + calls + e;
    CountPastAbsent([ResetSlot], capture, calls, e, InjectHooks);
    CountPastAbsent([ResetSlot], capture, calls, e, Navigate(BookingPage));
  }

  /** A submission error message is never the exhaustion message. */
  lemma SubmitErrorIsNotExhaustion(s: Submission)
    ensures SubmissionEnd(s) != SubmitError(ExhaustedMessage)
  {
    var e := SubmissionEnd(s);
    SubmissionClassified(s);
    if e.SubmitError? {
      assert e.message[0] == SubmitErrorPrefix[0] != ExhaustedMessage[0];
    }
  }

  /**
   * The outcome of a run: "no slots" exactly when the last page said so,
   * "potential slots" exactly when the last page did not, the exhaustion
   * failure exactly when the loop ran out (after an audio, transcription or
   * invalid-CAPTCHA failure on the last attempt), and any other failure is
   * the error of a submission on the last attempt.
   */
  lemma OutcomeCases(w: World)
    ensures var run := Workflow(w);
      && run.attempts != []
      && var last := run.attempts[|run.attempts| - 1];
      && (run.outcome == Success(false, NoSlotsMessage) <==> last.end == NoSlots)
      && (run.outcome == Success(true, SlotsMessage) <==> last.end == SlotsFound)
      && (run.outcome.Success? <==> last.end == NoSlots || last.end == SlotsFound)
      && (run.outcome == Failure(ExhaustedMessage) <==> run.exhausted)
      && (run.exhausted ==> last.end == NoAudio || last.end == NoCode || last.end == InvalidCaptcha)
      && (run.outcome.Failure? && !run.exhausted ==>
            |run.attempts| == MaxCaptchaAttempts && last.end == SubmitError(run.outcome.error))
  {
    WorkflowShape(w);
    var run := Workflow(w);
    var k := |run.attempts|;
    AttemptFacts(w, k);
    SubmitErrorIsNotExhaustion(w.submit(k));
  }

  /** A notification of the attempts is one sent by one of them. */
  lemma {:induction false} AttemptsNotesMember(runs: seq<AttemptRun>, a: Alert)
    ensures a in AttemptsNotes(runs) <==> exists i :: 0 <= i < |runs| && a in AttemptNotes(runs[i].end)
    decreases |runs|
  {
    if runs != [] {
      var before := runs[..|runs| - 1];
      AttemptsNotesMember(before, a);
      assert forall i :: 0 <= i < |before| ==> before[i] == runs[i];
    }
  }

  /** Attempts none of which notifies send no notification. */
  lemma {:induction false} AttemptsNotesQuiet(runs: seq<AttemptRun>)
    requires forall i :: 0 <= i < |runs| ==> AttemptNotes(runs[i].end) == []
    ensures AttemptsNotes(runs) == []
    decreases |runs|
  {
    if runs != [] {
      AttemptsNotesQuiet(runs[..|runs| - 1]);
    }
  }

  /** Each attempt sends at most one notification. */
  lemma {:induction false} AttemptsNotesLength(runs: seq<AttemptRun>)
    ensures |AttemptsNotes(runs)| <= |runs|
    decreases |runs|
  {
    if runs != [] {
      AttemptsNotesLength(runs[..|runs| - 1]);
    }
  }

  /**
   * The warning and the final error of a decided run: the slot warning is
   * sent exactly when slots may be available, the final error exactly when
   * the loop ran out, and either is then the last notification.
   */
  lemma FinalNotifications(run: WorkflowRun)
    requires Decided(run)
    ensures var notes := WorkflowNotes(run);
      && (SlotsAlert in notes <==> run.outcome == Success(true, SlotsMessage))
      && (run.outcome == Success(true, SlotsMessage) ==> notes[|notes| - 1] == SlotsAlert)
      && (ExhaustedAlert in notes <==> run.exhausted)
      && (run.exhausted ==> notes[|notes| - 1] == ExhaustedAlert)
  {
    var k := |run.attempts|;
    var before := run.attempts[..k - 1];
    assert run.attempts == before + [run.attempts[k - 1]];
    AttemptsNotesSnoc(before, run.attempts[k - 1]);
    AttemptsNotesMember(before, SlotsAlert);
    AttemptsNotesMember(run.attempts, ExhaustedAlert);
  }

  /** An error carrying a submission's message is sent exactly when some attempt's submission failed with it. */
  lemma SubmitNotifications(run: WorkflowRun, m: string)
    ensures SubmitAlert(m) in WorkflowNotes(run) <==>
      exists i :: 0 <= i < |run.attempts| && run.attempts[i].end == SubmitError(m)
  {
    AttemptsNotesMember(run.attempts, SubmitAlert(m));
  }

  /** A decided run sends at most `MaxCaptchaAttempts` notifications. */
  lemma NotificationCount(run: WorkflowRun)
    requires Decided(run)
    ensures |WorkflowNotes(run)| <= MaxCaptchaAttempts
  {
    var k := |run.attempts|;
    var before := run.attempts[..k - 1];
    assert run.attempts == before + [run.attempts[k - 1]];
    AttemptsNotesSnoc(before, run.attempts[k - 1]);
    AttemptsNotesLength(before);
  }

}
