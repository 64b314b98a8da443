# Prefecture slot checker: the decision procedure of `run`

The bot opens the booking page of a French prefecture and injects a hook that
stores the audio CAPTCHA's response body in the page variable
`window.capturedAudioData` (the *slot*). It then makes up to five CAPTCHA
attempts. Each attempt:

- clears the slot;
- makes up to three tries to capture acceptable audio;
- makes up to three calls to the transcription service;
- submits the first usable code.

The page reached after submission decides the next step: an invalid CAPTCHA
or an exception means another attempt, reloading the page when attempts
remain. A page saying "Aucun créneau disponible" ends the run with "no
slots". Any other page ends it with "potential slots" and a Telegram warning.
Failed submissions and the exhausted run send Telegram errors.

This project models that procedure and proves its properties.

- `Captcha` (captcha.dfy) holds the scripted outside world (`World`), the
  test a captured payload must pass (`Judge`), and the two inner loops.
  Each loop is specified by a function of the state after a number of tries
  (`CaptureAfter`, `TranscribeAfter`).
- `Flow` (workflow.dfy) holds the classification of the submission
  (`SubmissionEnd`), one attempt (`AttemptOf`), the outer loop over any
  attempt function (`RunAfter`, `OuterLoop`), and the whole run
  (`Workflow`). It also derives the driver trace and the notifications of a
  run, and proves what a run guarantees.
- `Bot` (session.dfy) is the imperative form. The class `Session` holds the
  slot, the trace of driver actions and the outbox of notifications. Its
  methods follow the three nested loops of `run`, one method per loop and
  per step of an attempt, and are proved to leave exactly the state
  `Workflow` specifies. One audio try is judged in a single step (`Judge`)
  rather than branch by branch. The loops leave early with `break` or
  `return` where the source ends the run or the inner loop early. A `break`
  on the last pass of a loop (bot_main.py:213, 281, 305 and 340) has no
  counterpart: there the model's loop simply runs out of passes, which
  ends it in the same state.
- `Notifier` (notifier.dfy) is `send_telegram_notification`: the emoji per
  status, the Markdown layout, and when a request is made at all.
- `Text` (text.dfy) is Python's `str.strip` and substring test.
- `Scenarios` (scenarios.dfy) works out two whole runs: audio that never
  arrives, and a first attempt that lands on a page without slots.

The outside world is a parameter, `World`: the result of every click and
read (indexed by attempt and try), every transcription call, and every
submission. Nothing in the model performs I/O.

## Model

| member | source | states |
|---|---|---|
| Captcha.Judge | bot_main.py:221-258 | A captured value is accepted exactly when it is present, the text is non-empty, it decodes to at least 1024 bytes and it is not known to be shorter than one second. Each rejection verdict (no data, decode error, too small) holds exactly under its own condition. |
| Captcha.SlotClearedOnlyOnRejection | bot_main.py:201-271 | A click error leaves the slot alone. After a click, a non-empty slot is emptied exactly when its contents are rejected as too small or too short while tries remain; otherwise the slot keeps what the read saw. |
| Captcha.TryOutcome | bot_main.py:201-219 | A try reports a click error exactly when locating or clicking the control raised. |
| Captcha.CaptureSettled | bot_main.py:254 | Once a capture is accepted the audio loop has stopped: more tries change nothing. |
| Captcha.CaptureStopsAtFirstAcceptance | bot_main.py:196-271 | The audio loop makes at most three tries and at least one. No try before the last was accepted. The loop ended on an accepted capture exactly when the last try reads "accepted". Without an accepted capture it made every try. |
| Captcha.AcceptedCaptureIsJudged | bot_main.py:221-258 | When the loop ends with an accepted capture, the slot holds a value that passes `Judge`. |
| Captcha.ClickErrorsAreRaisedClicks | bot_main.py:201-213 | Try k reports a click error exactly when the k-th click raised. |
| Captcha.SlotKeptUnlessRejected | bot_main.py:226-271 | When no new audio arrives, a try after "no data" or "decode error" reads the same verdict again, because the slot was kept (a decode error is a property of the payload; see "Left out"). A try after a too-small or too-short rejection reads "no data", because the slot was cleared. |
| Captcha.NormaliseTrims | bot_main.py:84-87 | The transcription result is present exactly when the service answered. It is then a slice of the answer with only whitespace around it, and it neither starts nor ends with whitespace. |
| Captcha.UsableIffNotBlank | bot_main.py:84 | A transcription is usable (truthy) exactly when the service answered with something other than whitespace. |
| Captcha.TranscriptionSettled | bot_main.py:288-290 | Once a usable code is found the transcription loop has stopped: more calls change nothing. |
| Captcha.FirstUsableTranscription | bot_main.py:285-296 | The calls are made in order, at most three and at least one. Every call before the last gave nothing usable. There is a code exactly when the last call gave a usable one, and the code is that answer stripped. Without a usable answer every call is made and there is no code. |
| Captcha.CaptureEventsKinds | bot_main.py:196-271 | The audio loop's trace holds only try events and slot resets. |
| Captcha.CaptureEventsResets | bot_main.py:226-251 | In the audio loop's trace a reset never comes first. Every reset comes right after a try rejected as too small or too short while tries remained. Such a try is followed by a reset, and no other try is. |
| Captcha.TranscriptionEventsKinds | bot_main.py:285-296 | The transcription loop's trace holds only its calls. |
| Text.Strip | bot_main.py:84 | The stripped text neither starts nor ends with whitespace. |
| Text.StripIsTrimmedSlice | bot_main.py:84 | What stripping keeps is a slice of the input with only whitespace before and after it. |
| Text.StripEmptyIffAllSpace | bot_main.py:84 | Stripping gives the empty string exactly when the input is all whitespace. |
| Text.StripIdempotent | bot_main.py:84 | Stripping twice is stripping once. |
| Text.ContainsIffOccurs | bot_main.py:330 | The left-to-right scan finds the pattern exactly when some slice of the text equals it (Python's `in`). |
| Text.OccursInTail | bot_main.py:345 | When the pattern is not at the front, it occurs in the text exactly when it occurs in the text minus its first character. |
| Flow.SubmissionClassified | bot_main.py:309-361 | A submission is an invalid CAPTCHA exactly when the URL reached contains `error=invalidCaptcha`. Otherwise: the page shows no slots exactly when its text contains "Aucun créneau disponible"; any other page text is a potential slot; an exception while submitting or reading the page is an error with the message "Error during captcha submission: " followed by the exception text. |
| Flow.SubmitErrorIsNotExhaustion | bot_main.py:360 | A submission error's message is never the exhaustion message. |
| Flow.Sent | bot_main.py:352-361 | The slot notification goes out with status "warning"; the submission error and the final notification go out with status "error". |
| Flow.AttemptFacts | bot_main.py:189-310 | An attempt transcribes only after an accepted capture, and it submits exactly when both the capture and the transcription succeeded. The capture it submits passes `Judge`; the code it submits is usable. Each loop stays within three tries, and the ending is the classification of the submission. |
| Flow.SubmitEventsReload | bot_main.py:330-368 | The submission step navigates to the booking page once and re-injects the hooks once when the ending calls for a reload, and does neither otherwise. |
| Flow.AttemptReloadsOnce | bot_main.py:191-368 | A whole attempt reloads the page and re-injects the hooks once each exactly when it ended with an invalid CAPTCHA or a submission error while attempts remain, and never otherwise. |
| Flow.AttemptTrace | bot_main.py:191-368 | An attempt's trace starts by clearing the slot. The page is reloaded and the hooks re-injected exactly when the attempt ended with an invalid CAPTCHA or a submission error and attempts remain. The code typed is the transcription's code, typed exactly when the attempt reached the submission. |
| Flow.RunSettled | bot_main.py:348-371 | Once an attempt returned, later attempts are never made. |
| Flow.RunShape | bot_main.py:185-371 | After n attempts the outer loop has made attempts 1..n in order, each of which went on, or it has returned. A returned loop ended on its last attempt, with that attempt's result. |
| Flow.FirstAttemptReturns | bot_main.py:345-356 | When the first attempt returns, the run is that attempt alone, with the result it returned. |
| Flow.OuterLoopShape | bot_main.py:185-377 | The outer loop makes between one and five attempts, in order. Every attempt but the last went on. The loop ran out exactly when the last would have gone on too, which only happens on attempt five. Otherwise it returns what the last attempt decided. |
| Flow.WorkflowShape | bot_main.py:185-377 | The same holds for `run` on a world, where attempt i is `AttemptOf(w, i)`. |
| Flow.OutcomeCases | bot_main.py:274-377 | `run` returns "no slots" exactly when the last page said so, and "potential slots" exactly when it did not. It returns the exhaustion failure exactly when the loop ran out, which is after an audio, transcription or invalid-CAPTCHA failure on attempt five. Any other failure is the error of a submission on attempt five. |
| Flow.FinalNotifications | bot_main.py:350-376 | The slot warning is sent exactly when slots may be available, and it is then the last notification. The final error is sent exactly when the loop ran out, and it is then the last notification. |
| Flow.SubmitNotifications | bot_main.py:358-361 | An error carrying a message is sent exactly when some attempt's submission failed with that message. |
| Flow.NotificationCount | bot_main.py:352-376 | A run sends at most five notifications. |
| Flow.AttemptsNotesMember | bot_main.py:352-361 | A notification of a sequence of attempts is one sent by one of them. |
| Flow.AttemptsNotesLength | bot_main.py:352-361 | Each attempt sends at most one notification. |
| Flow.AttemptsNotesQuiet | bot_main.py:274-305 | Attempts none of which notifies send nothing. |
| Notifier.Emoji | bot_main.py:33-39 | "success", "warning" and "error" get their own emoji; every other status gets the info emoji. |
| Notifier.Upper | bot_main.py:42 | Upper-casing keeps the length. No lower-case letter is left: each becomes its capital, and every other character is kept. |
| Notifier.UpperOfStatuses | bot_main.py:42 | The two statuses `run` sends (bot_main.py:354 and 361) come out as "WARNING" and "ERROR". |
| Notifier.Format | bot_main.py:42 | The formatted text starts with the status's emoji and ends with the footer, and its length is header, message and footer together. |
| Notifier.FormatRoundTrip | bot_main.py:42 | The message can be read back out of every formatted text. |
| Notifier.Outgoing | bot_main.py:20-50 | No request is made exactly when the bot token or the chat id is unset or empty. Otherwise the request is a Markdown `sendMessage` to the configured chat, whose text is the formatted message; the text starts with the status's emoji and gives the message back. |
| Bot.Session.constructor | bot_main.py:109 | A new session has an empty slot, trace and outbox. |
| Bot.Session.Visit | bot_main.py:178 | Loading the booking page empties the slot and adds the navigation to the trace. |
| Bot.Session.InjectAudioHooks | bot_main.py:114-117 | Injecting the hooks empties the slot. |
| Bot.Session.ResetCaptured | bot_main.py:191 | Clearing the slot empties it and records the reset. |
| Bot.Session.Notify | bot_main.py:15 | A notification is appended to the outbox and nothing else changes. |
| Bot.Session.AudioTry | bot_main.py:199-271 | One try reports `TryOutcome` of the click, leaves the slot where `NextSlot` says, and records the try and any reset. |
| Bot.Session.CaptureAudio | bot_main.py:196-271 | The audio loop returns whether a capture was accepted and leaves the slot and trace exactly as `CaptureOf` specifies. |
| Bot.Session.Transcribe | bot_main.py:287 | One transcription call returns the service's answer and records the call. |
| Bot.Session.DecodeCaptcha | bot_main.py:284-296 | The transcription loop returns the code `TranscriptionOf` finds, or something unusable when there is none, and records exactly its calls. |
| Bot.Session.Submit | bot_main.py:307-371 | The submission ends as `SubmissionEnd` classifies it. It reloads and re-injects exactly when `Reloads` says, and sends exactly the notification of that ending. |
| Bot.Session.Attempt | bot_main.py:189-371 | One attempt ends as `AttemptOf` says, leaves the slot as `SlotAfter` says, and adds exactly that attempt's trace and notifications. |
| Bot.Session.RunWorkflow | bot_main.py:177-377 | `run` returns the outcome of `Workflow` and leaves exactly its trace, slot and notifications, the final error included. |
| Scenarios.SilentCapture | bot_main.py:266-271 | When no audio ever arrives, every try reads an empty slot and nothing is accepted. |
| Scenarios.Silence | bot_main.py:273-281 | When no audio ever arrives, `run` makes five attempts of three tries each. It fails with "Failed to solve captcha after all attempts", and that error is its only notification. |
| Scenarios.FirstAttemptFindsNoSlots | bot_main.py:196-348 | With acceptable audio at the first try, a usable first transcription and a page without slots, the first attempt makes one try and one call and finds no slots. |
| Scenarios.TracesOfNoSlots | bot_main.py:191-348 | That attempt's trace is: clear the slot, one try, one call, type the code. It sends nothing. |
| Scenarios.NoSlotsAtFirstAttempt | bot_main.py:345-348 | In that run `run` returns "no slots" after one attempt and sends no notification. |
| Scenarios.NoSlotsAtFirstAttemptTrace | bot_main.py:177-348 | In that run the driver loads the page, injects the hooks, and does exactly the steps of that one attempt. |

## Left out

- The injected fetch/XHR JavaScript (bot_main.py:114-175) is a foreign call. Injection is modelled only as emptying the slot. Audio "arriving" is a field of each click's scripted result.
- The clicks, `run_js` reads, `current_url` and `innerText` are browser automation. Their results are fields of `World`.
- The choice between the CSS and the XPath click target (bot_main.py:202-205) is left out. Either raising is a click error.
- The JavaScript fallback click (bot_main.py:316-321) is folded into the scripted submission. Whichever click took effect, `World.submit` gives the URL and page that followed.
- `innerText` returning nothing makes the substring test raise inside the `try` (bot_main.py:344-345). The model has it as `PageRaised`, which gives the same submission error.
- The Gemini upload and generation (bot_main.py:67-83) are a network client. The model keeps only the raw answer, or `None` for a failed call or a missing key.
- Base64 decoding, writing the file and `mutagen` (bot_main.py:224, 237-245) are library calls.
  - A failed write is folded into "undecodable", since it reaches the same `except`.
  - The duration is abstracted to "under one second", "at least one second or unknown type", and "reading raised".
- All `sleep` calls, `time.time()` file names, the files left on disk and the console output are left out. They do not affect any decision.
- The endless scheduler loop, its start-up notification and its handling of exceptions that escape `run` (bot_main.py:379-412) are left out.
- An exception raised outside a `try` is left out. Examples are the reload after a failed submission, and the slot reset at the start of an attempt.
- A driver call that raises inside a `try` is left out too. Slot resets and reloads are taken always to succeed. Each such case would change the outcome:
  - If the reset after a too-small capture (bot_main.py:230) raised, the `except` at :260 would leave the payload in the slot.
  - If the reset after a too-short capture (bot_main.py:249) raised, the `except` at :255 would accept that capture.
  - If the reload and re-injection after an invalid CAPTCHA (bot_main.py:334-336) raised, the `except` at :358 would send an error notification and reload again.
- Captcha.SlotKeptUnlessRejected: a failed write of the decoded file (bot_main.py:239-240) is folded into the payload's `Undecodable`, so it repeats for the same payload. In the source, the next try decodes and writes the kept payload again, and that write may succeed. The lemma's "a decode error reads the same verdict again" therefore holds only for this abstraction. For a genuine base64 error it is exact.
- The HTTP POST to Telegram and its status handling (bot_main.py:53-61) are left out. `Notifier.Outgoing` is the request that would be posted.
- `Bot.Session.Notify` records what was sent as an `Alert`. `Flow.Sent` gives the status and text passed to `send_telegram_notification`.
- Notifier.Upper: only ASCII letters are upper-cased. Python's full Unicode case mapping is not modelled; the statuses `run` uses are ASCII.
