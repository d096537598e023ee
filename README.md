# Speaking and grammar practice pages, modelled in Dafny

The application trains English in four modules. Three speaking pages record
the learner's voice and send it to the server:
- module A: read a sentence aloud;
- module B: listen to a sentence, then repeat it;
- module C: speak on a topic for up to two minutes.

Module D is a grammar quiz that the server grades.

This project models four parts:
- **`Recording.Controller`** (`recording.dfy`). One class plays the recording session controller of all three speaking pages. Most fields are the pages' module-level variables: `isRecording`, the countdown and recording timers, `timeRemaining`, the chunk buffer and `questionCount`, plus `hasPlayedAudio` for module B. The field `timeLeft` stands for the counter that the countdown interval's closure keeps, a local of `startCountdown` (moduleA.js:91, moduleB.js:148). The fields `buttonDisabled` and `playDisabled` stand for the `disabled` flags of the record and play buttons. `const page` selects the variant:
  - a 4-tick countdown (A, B) or none (C);
  - an audio-played gate (B) or none;
  - a 120-tick auto-stop (C) or none;
  - a limit of 10 prompts (A, B) or 5 (C).

  Browser callbacks are methods that the environment calls: `CountdownTick`, `RecordingClockTick`, `TimerTick`, `DataAvailable`, `RecorderStopped`, `ResultsTimeout`, `UtteranceEnded`. What the browser or the server answers is a parameter (`MediaOutcome`, `LoadOutcome`, `SubmitOutcome`).

  A timer variable holds `Null`, an `Armed` handle, or a `Spent` one: cleared or fired, but not set back to null. Recorders that a new recording replaces while they are still capturing are counted in the ghost field `orphaned`. `pendingStops` counts the `onstop` callbacks that stopped recorders still owe.
- **`TimeDisplay`** (`time_display.dfy`). The two clock texts: module A/B's `mm:ss` elapsed time and module C's `m:ss` remaining time. Each is proved to read back to the number of seconds it shows.
- **`QuizGrading`** (`quiz_grading.dfy`). The server side of the quiz:
  - the 25-entry question bank;
  - `get_quiz`, as `QuizSession.GetQuiz`; the random sample and the random quiz-id number are parameters;
  - `submit_answers`, as `QuizSession.SubmitAnswers`: the grading loop, proved against the reference functions `Score` and `Review`.
- **`QuizNavigation.QuizPage`** (`quiz_nav.dfy`). The quiz page: the question index, the answer map, the navigation buttons, the progress pill, and the list posted to the server.

Shared string operations are in `text.dfy`: decimal rendering, `padStart`, splitting at a separator, JavaScript `trim` and Python `strip`, and lower-casing. Whole sessions are driven event by event in `recording_scenarios.dfy` and `quiz_scenarios.dfy`. `QuizScenarios.QuizRoundTrip` connects the page to the server.

## Model

| member | source | states |
|---|---|---|
| Text.Str | static/moduleA.js:175-176 | `toString` of a non-negative integer: digits only, no leading zero |
| Text.ParseStr | static/moduleA.js:175-176 | the decimal text reads back to the number |
| Text.StrInjective | moduleD.py:88 | distinct indices give distinct `str(i)` keys |
| Text.PadStart | static/moduleA.js:176 | `padStart(width, fill)` yields max(len, width) characters |
| Text.ParsePadStart | static/moduleA.js:176 | padding with '0' keeps the digits and their value |
| Text.IndexOf | static/moduleA.js:176 | first position of a character, or the length when absent |
| Text.ParsePair | static/moduleA.js:176 | a `digits sep digits` parse succeeds only if the separator occurs |
| Text.JoinedRoundTrip | static/moduleA.js:306 | the text `a/b` of `updateProgressUI` reads back as (a, b) |
| Text.TrimStartShape | static/moduleD.js:96 | the start trim removes the longest all-whitespace prefix |
| Text.TrimEndShape | static/moduleD.js:96 | the end trim removes the longest all-whitespace suffix |
| Text.TrimClean | static/moduleD.js:96 | a trimmed text has no whitespace at either end and is no longer than the input |
| Text.TrimKeepsClean | moduleD.py:96 | trimming a text without border whitespace changes nothing |
| Text.TrimIdempotent | moduleD.py:96 | trimming twice equals trimming once |
| Text.LowerChar | moduleD.py:97 | no upper-case ASCII letter survives |
| TimeDisplay.SecondsField | static/moduleA.js:174-176 | the seconds field has two digits and reads back as the seconds |
| TimeDisplay.PaddedMinutes | static/moduleA.js:173-176 | the padded minutes have at least two digits, exactly two below 100, and read back |
| TimeDisplay.PlainMinutes | static/moduleC.js:207-209 | unpadded minutes: one digit below 10, reading back as the minutes |
| TimeDisplay.ElapsedText | static/moduleA.js:170-180 | the elapsed display has ':' three places from its end |
| TimeDisplay.RemainingText | static/moduleC.js:206-211 | the remaining-time display has ':' three places from its end |
| TimeDisplay.ElapsedTextRoundTrip | static/moduleB.js:223-233 | `mm:ss` for e seconds reads back as minutes*60+seconds = e |
| TimeDisplay.RemainingTextRoundTrip | static/moduleC.js:206-211 | `m:ss` for r seconds reads back as r |
| TimeDisplay.ClockWidths | static/moduleA.js:173-176 | below 100 minutes the elapsed text is exactly 5 characters; below 10 minutes the remaining text is exactly 4 |
| TimeDisplay.RemainingMinutesUnpadded | static/moduleC.js:209 | remaining minutes are a bare digit, while elapsed minutes are zero-padded |
| Recording.NonEmptyChunksSound | static/moduleA.js:129-133 | the buffer holds only chunks of positive size, each of which arrived |
| Recording.NonEmptyChunksAppend | static/moduleA.js:129-133 | filtering distributes over arrival order: later chunks are appended after earlier ones |
| Recording.NonEmptyChunksKeepsPositive | static/moduleB.js:186-190 | every chunk of positive size is kept, and nothing is reordered |
| Recording.Controller.constructor | static/moduleA.js:6-14 | initial state: no prompt, not recording, timers null, empty buffer |
| Recording.Controller.ResetUI | static/moduleA.js:263-285 | `resetUI`: not recording, the record button enabled (and module B's play button, moduleB.js:332-352), both timers null; its results are constants, so a second call changes nothing |
| Recording.Controller.ResetTimer | static/moduleC.js:199-204 | `resetTimer`: interval cleared and full duration restored |
| Recording.Controller.ResetRecordButton | static/moduleB.js:324-330 | `resetRecordButton`: not recording and button enabled; module C also resets its timer (moduleC.js:273-283) |
| Recording.Controller.StopRecording | static/moduleA.js:182-203 | acts only with a recorder and a recording under way: clears the recording timer, disables the button, owes one `onstop`; otherwise changes nothing |
| Recording.Controller.StartCountdown | static/moduleA.js:86-94 | the countdown is armed at 4 and shows 4 |
| Recording.Controller.StartRecording | static/moduleA.js:106-168 | granted: fresh recorder, empty buffer, timer armed; every failure shows its notice and ends reset, module C's timer back at 120, except module C with no media API, which changes nothing (moduleC.js:93-100); a `start()` that throws leaves the new recorder in place and the buffer empty |
| Recording.Controller.BeginCapture | static/moduleA.js:116-153 | the success branch: recording, capturing, empty buffer, the clock at 00:00 or the auto-stop interval at 120 |
| Recording.Controller.ArmRecordingTimer | static/moduleC.js:176-190 | module C starts its interval at 120; modules A and B start the elapsed clock at 0 |
| Recording.Controller.StartTimer | static/moduleC.js:176-190 | `startTimer`: 120 seconds on the display and the interval armed |
| Recording.Controller.StartClock | static/moduleA.js:170-180 | the first `updateRecordingTime`: 0 seconds shown and the next update scheduled |
| Recording.Controller.AbandonStart | static/moduleA.js:157-167 | the failure branch: the notice for the error name, then `resetUI` (A, B) or `resetRecordButton` with the timer reset (C, moduleC.js:145-155) |
| Recording.Controller.DiscardRecorder | static/moduleA.js:125-145 | `start()` threw after the new recorder replaced the old one and emptied the buffer: the new recorder is inactive, the buffer empty, the stream held |
| Recording.Controller.ToggleRecording | static/moduleA.js:78-84 | not recording: countdown armed at 4 (A, B) or recording started (C, moduleC.js:85-91); recording: stop; module B warns and changes nothing until the prompt was heard (moduleB.js:130-134) |
| Recording.Controller.CountdownTick | static/moduleA.js:94-103 | decrements the counter; while it stays positive it is shown; on the tick where it reaches 0 the interval is cleared and recording starts |
| Recording.Controller.RecordingClockTick | static/moduleA.js:170-180 | while recording, shows the elapsed seconds and reschedules; otherwise stops rescheduling |
| Recording.Controller.TimerTick | static/moduleC.js:181-189 | one second less; on the tick that reaches 0 the recording stops, so the interval is cleared |
| Recording.Controller.DataAvailable | static/moduleA.js:129-133 | a chunk of positive size is appended, and only then |
| Recording.Controller.RecorderStopped | static/moduleA.js:135-143 | `onstop`: submits exactly the buffer; on every reply the `finally` resets the controls (moduleA.js:233-235, moduleB.js:285-287, moduleC.js:244-246) and the stream is released |
| Recording.Controller.ShowSubmission | static/moduleA.js:205-236 | a 401 goes to login, a score shows results and (A, B) schedules the next prompt, a rejection or a network failure is reported |
| Recording.Controller.LoadPrompt | static/moduleA.js:38-76 | at the limit nothing is fetched and the counter stays put; a load increments it by exactly 1, so it never exceeds 10 (A, B) or 5 (C, moduleC.js:38-83) |
| Recording.Controller.ShowPrompt | static/moduleB.js:60-69 | the success branch: counted, controls reset, module B's `hasPlayedAudio` false |
| Recording.Controller.ResultsTimeout | static/moduleA.js:249-252 | the 5-second auto-advance closes the results and runs `loadSentence` (moduleB.js:40-79): a loaded prompt is counted with the controls reset and module B's `hasPlayedAudio` false; a failed load reports its notice or goes to login with the controls unchanged; it never starts recording or sets `hasPlayedAudio` |
| Recording.Controller.CloseResults | static/moduleC.js:265-267 | hides the results |
| Recording.Controller.PlayAudio | static/moduleB.js:81-128 | pressed while enabled: with speech synthesis the button is disabled and (any earlier speech cancelled) an utterance speaks; without it "not supported" and the button enabled again |
| Recording.Controller.UtteranceEnded | static/moduleB.js:98-106 | sets `hasPlayedAudio`, ends speech and enables the play button; every other method that changes `hasPlayedAudio` can only clear it |
| Recording.Controller.UtteranceFailed | static/moduleB.js:108-113 | playback failure is reported, speech ends and the play button is enabled |
| RecordingScenarios.RunCountdown | static/moduleA.js:91-103 | from a fresh countdown, recording starts on exactly the 4th tick with an empty buffer |
| RecordingScenarios.CountdownThenRecord | static/moduleB.js:143-161 | modules A and B record only after the 4-tick countdown |
| RecordingScenarios.AutoStopAfterFullDuration | static/moduleC.js:176-190 | left alone, module C stops after exactly 120 ticks, owes one submission and shows "0:00" |
| RecordingScenarios.ListenBeforeRecording | static/moduleB.js:130-141 | before listening the button only warns; afterwards it starts the countdown |
| RecordingScenarios.RefusedMicrophone | static/moduleC.js:145-155 | a refused microphone is reported as denied and leaves the button usable |
| RecordingScenarios.StopTwice | static/moduleC.js:158-174 | stopping twice owes one submission |
| RecordingScenarios.ResetTwice | static/moduleA.js:263-285 | a second `resetUI` leaves the same state as the first |
| RecordingScenarios.AdvanceNeedsListening | static/moduleB.js:130-134 | module B: after the auto-advance loads the next sentence, the record button asks for it to be heard first; no load starts a recording |
| RecordingScenarios.ReplayAfterRefusedStart | static/moduleB.js:317-352 | a refused microphone on the last countdown tick runs `resetUI`, which enables the play button while speech continues; the press is accepted and speech restarts |
| RecordingScenarios.DeliverChunks | static/moduleA.js:129-133 | chunks sized 3, 0, 5 leave the buffer holding the two non-empty ones in order |
| RecordingScenarios.SecondPromptText | static/moduleA.js:302-307 | the pill after the second prompt is "2/10" |
| RecordingScenarios.RecordFirstPrompt | static/moduleA.js:78-203 | load, record, three chunks, stop: one submission owed, the buffer as delivered |
| RecordingScenarios.OnePromptCycle | static/moduleA.js:135-252 | the submission carries the non-empty chunks in order, and the auto-advance counts the second prompt |
| QuizGrading.ListAsDict | moduleD.py:87-88 | a list becomes a map from `str(i)` to the i-th answer |
| QuizGrading.LookupList | moduleD.py:87-96 | a list answers question i with its i-th entry, and questions past its end with "" |
| QuizGrading.Verdicts | moduleD.py:95-98 | one verdict per question: normalised answer equals lower-cased expected answer |
| QuizGrading.CountTrue | moduleD.py:100-101 | the count never exceeds the number of questions |
| QuizGrading.AllTrueIff | moduleD.py:100-101 | the count equals the length iff every verdict is true |
| QuizGrading.NoneTrueIff | moduleD.py:100-101 | the count is 0 iff no verdict is true |
| QuizGrading.Review | moduleD.py:103-109 | one review item per question in order, with number idx+1, sentence, expected answer, `correct` matching the comparison, and the normalised answer, or "(no answer)" when it is empty |
| QuizGrading.ScoreMatchesReview | moduleD.py:100-117 | the score equals the number of review items marked correct |
| QuizGrading.FullMarksIff | moduleD.py:95-101 | score = total iff every question is answered correctly |
| QuizGrading.ZeroMarksIff | moduleD.py:95-101 | score = 0 iff no question is answered correctly |
| QuizGrading.MissingAnswerIsWrong | moduleD.py:96-106 | a question past the end of the list is shown as "(no answer)" and marked wrong |
| QuizGrading.NormalizeClean | moduleD.py:96 | an answer without border whitespace is compared lower-cased |
| QuizGrading.ExpectedAnswersFullMarks | moduleD.py:95-101 | submitting the expected answers (without border whitespace) scores full marks |
| QuizGrading.LetterEndsClean | moduleD.py:5-31 | an answer that begins and ends with a letter has no border whitespace |
| QuizGrading.BankLetterEnds | moduleD.py:5-31 | every bank answer begins and ends with a lower-case letter |
| QuizGrading.BankAnswersClean | moduleD.py:5-31 | every bank answer is non-empty, without border whitespace |
| QuizGrading.DrawnQuizMarks | moduleD.py:43-101 | on any drawn quiz, the expected answers score full marks and an empty list scores 0 |
| QuizGrading.NumberQuestions | moduleD.py:45-52 | the client copy of question i has id i, number i+1, and the sentence and category of entry i |
| QuizGrading.GradeStep | moduleD.py:95-109 | grading question idx extends the score and the review by that question's verdict and entry |
| QuizGrading.GradeDone | moduleD.py:111 | after the last question the prefixes are the whole score and review |
| QuizGrading.QuizSession.constructor | moduleD.py:34 | no active quiz |
| QuizGrading.QuizSession.GetQuiz | moduleD.py:36-65 | min(n, 25) distinct bank entries become the current quiz, returned numbered with `quiz_NNNN`; a negative n reports the sampling error and keeps the old quiz |
| QuizGrading.QuizSession.SubmitAnswers | moduleD.py:67-121 | fails exactly when there is no quiz; otherwise total = len(quiz), score = correct_count = `Score`, review = `Review` |
| QuizNavigation.ServerReadsStoredAnswers | static/moduleD.js:160-163 | the server reads for question i exactly the stored answer, or "" |
| QuizNavigation.StoredAnswerIsTrimmed | static/moduleD.js:95-97 | a stored answer has no JavaScript whitespace at either end and re-trims to itself |
| QuizNavigation.QuizPage.constructor | static/moduleD.js:3-5 | no quiz, index 0, no answers |
| QuizNavigation.QuizPage.ProgressShowsPosition | static/moduleD.js:243-249 | the pill reads back as (index+1, n) |
| QuizNavigation.QuizPage.ButtonsShowPosition | static/moduleD.js:117-132 | Prev is disabled iff index is 0; Next reads "Submit Quiz" iff index is n-1 |
| QuizNavigation.QuizPage.UpdateNavigationButtons | static/moduleD.js:117-132 | sets Prev's `disabled` and Next's label from the index |
| QuizNavigation.QuizPage.UpdateProgressUI | static/moduleD.js:243-249 | the pill shows `index+1/n` |
| QuizNavigation.QuizPage.DisplayQuestion | static/moduleD.js:62-115 | shows the current sentence, puts the stored answer (or "") in the box, and updates the buttons |
| QuizNavigation.QuizPage.RedisplayKeepsInput | static/moduleD.js:92-97 | a box filled from a stored answer trims back to it |
| QuizNavigation.QuizPage.LoadQuiz | static/moduleD.js:12-60 | accepted iff `success !== false` and the list is non-empty: index 0, no answers; a 401 goes to login; invalid data or a failure leaves no quiz and an error message |
| QuizNavigation.QuizPage.RecordAnswer | static/moduleD.js:95-97 | the trimmed box text becomes the current question's answer |
| QuizNavigation.QuizPage.PreviousQuestion | static/moduleD.js:134-140 | at index 0 nothing changes; otherwise one step back, with that question's answer in the box |
| QuizNavigation.QuizPage.ShowSubmission | static/moduleD.js:181-198 | a 401 goes to login; a grading is shown; a refusal reports its error or "Unknown error"; a failure is reported |
| QuizNavigation.QuizPage.BuildAnswers | static/moduleD.js:160-163 | the list has length n, and entry i is the stored answer or "" |
| QuizNavigation.QuizPage.NextQuestion | static/moduleD.js:142-154 | no quiz: nothing; below n-1: one step forward; at n-1: the dense answers are posted and the reply handled, so the index stays within [0, n-1] |
| QuizNavigation.QuizPage.CompleteQuiz | static/moduleD.js:238-241 | goes to the report page |
| QuizScenarios.Revisit | static/moduleD.js:92-140 | an answer typed, then Next and Previous: the box shows it trimmed, Prev is disabled, the pill reads `1/n` |
| QuizScenarios.AnswerThenRevisit | static/moduleD.js:92-140 | " is " comes back as "is" on "1/3" |
| QuizScenarios.TwoAnswersFullMarks | moduleD.py:95-101 | "Is" and "than" on bank questions 0 and 2 score 2 |
| QuizScenarios.AnswerTwo | static/moduleD.js:95-154 | two typed answers are stored trimmed at indices 0 and 1 |
| QuizScenarios.PostedPair | static/moduleD.js:160-163 | the page posts ["Is", "than"] after " Is" and "than " |
| QuizScenarios.DrawPair | moduleD.py:36-59 | the server draws entries 0 and 2 as the current quiz |
| QuizScenarios.GradePair | moduleD.py:67-121 | the server grades that draw: score 2 of 2 |
| QuizScenarios.QuizRoundTrip | static/moduleD.js:156-199 | drawn, answered with stray spaces and a capital, posted and graded: full marks, and the page shows the grading |

## Left out

- Markup and rendering: button texts, the visibility of wrappers, the countdown and the waveform, `showLoading`, CSS classes, and the results template (static/moduleD.js:214-232). The code shows no markup, so DOM state appears only where a handler's logic depends on it: the record button's `disabled`, the quiz buttons, the pills, the answer box and the question text.
- Notification texts. Each message is a `Notice` / `QuizNotice` value. The JavaScript `error.message` that some messages append is not modelled.
- Floating point: the percentage (moduleD.py:112, 119; static/moduleD.js:205) and `Math.round` of scores in `displayResults`.
- Time and randomness. `Date.now()` becomes the `elapsed` parameter of `RecordingClockTick`. `random.sample` becomes the `picks` parameter of `GetQuiz`, and `random.randint` its `quizTag`.
- Asynchronous interleaving. Every `await` (getUserMedia, fetch, response.json) is one atomic step with its outcome as a parameter. Events arriving while a request is in flight are not modelled.
- `checkMicrophonePermission` (static/moduleA.js:21-36 and its copies). It only queries the browser's permission state on page load and reports it.
- `logout` and the `beforeunload` handlers are browser plumbing. `goToNextModule`'s `confirm` is the `proceed` parameter of `LoadPrompt`.
- `speechSynthesis` details (rate, pitch, voice) and the play button's texts. Speech is `PlayAudio` / `UtteranceEnded` / `UtteranceFailed`.
- Recording.Controller.PlayAudio: one utterance is tracked. After `speechSynthesis.cancel()` (moduleB.js:90), the browser may still deliver an `onerror` for the replaced utterance, and the model folds that into the current one.
- The `catch` branch of `playAudio` (moduleB.js:122-127) is not modelled. It runs only if building the utterance throws.
- MediaRecorder MIME type selection, `Blob` and `FormData`. A submission is the buffered `Chunk` sequence.
- Unicode case mapping. `Lower` lower-cases ASCII letters only, while Python's `str.lower` and JavaScript are Unicode-aware.
- app.py, including its `get_quiz()` call with the default of 5 questions. `GetQuiz` takes the count as a parameter.
- The `difficulty` argument of `get_quiz` is unused by the code.
- The `except` branch of `submit_answers` (moduleD.py:123-127). It is reachable only when the payload is not a list or dict of strings, for example a string, a number or null, and `Answers` holds only lists and maps of strings.
- Recording.Controller.ToggleRecording: requires the countdown not armed and the button enabled. `startCountdown` hides the button and `stopRecording` disables it, so the page cannot deliver the click then.
- Recording.Controller.RecorderStopped: requires an outstanding `onstop`. The callback fires only after `stop()`.
- QuizNavigation.QuizPage.LoadQuiz: requires that no quiz is loaded yet. The page calls `loadQuiz` once, on `DOMContentLoaded` (static/moduleD.js:7-10).
- QuizNavigation.QuizPage.RecordAnswer: requires a loaded quiz. The answer box exists only once `displayQuestion` has shown a question.
- The `if (!question) return` guard of `displayQuestion` cannot trigger while the index stays inside the list, which `QuizPage.Valid` maintains, so it is not modelled.
- The question-number label (`${index + 1}.`) and the input focus of `displayQuestion`.
