# FluentPulse practice core, modelled in Dafny

FluentPulse is an English-conversation practice app. A learner talks or types
to an AI partner, and each AI reply carries an embedded block of
corrective feedback. This project models the parts of the app that decide
what happens, as pure functions over immutable records:

- **Feedback extraction and request assembly** (`Groq` module). The lazy
  pattern that finds the feedback block is a three-stage scan. It is proved
  to select the leftmost-then-shortest match. `parseFeedback` cuts that
  region out and trims the rest, and falls back to the raw reply.
  `startPractice` builds the message list and maps failures to fixed
  messages.
- **The practice-session turn engine** (`PracticeSession`, with the proofs
  in `SessionProofs`). One `Session` record holds the component's state. Each
  handler, each timer firing, each recognizer callback and the arrival of the
  chat reply is one atomic transition on that record, and so is the
  end-session button. `Step` dispatches an `Event` to its transition with the
  corrected switches and timers, and `Run` folds a sequence of events.
  `StepAsWritten` and `RunAsWritten` do the same with the routines as the
  component writes them. The proofs cover:
  - an invariant every reachable state keeps: the stats equal the stats
    recomputed from the log, and a request in flight answers the last user
    entry;
  - the append-only log and stats that never decrease;
  - what a turn does;
  - echo freedom: the recognizer never runs while a reply is being spoken
    (for the corrected engine only; the program as written breaks it, see
    "## Findings").
- **The sign-in form** (`AuthPage`): validation, including the email
  pattern `\S+@\S+\.\S+` as a proved scanner; editing a field; switching
  mode; submitting; and the "switch to sign in" offer.
- **The onboarding wizard** (`Onboarding`): the step machine, the
  skill-check upsert, and the update written on finish.
- **Authentication bookkeeping** (`UseAuth`): the error-code messages, the
  new-user document, and the routing decision after sign-up, sign-in and
  Google sign-in.
- **The dashboard's progress view** (`Dashboard`): loading the counters and
  the local bump after a session, checked against the increments the session
  writes to the store.

Foreign calls become parameters or plain values:
- the chat-completion client is an `Option` of a function from request to
  optional reply;
- `JSON.parse` is a function to `Option<Feedback>`;
- Firebase Auth outcomes are `Result`s;
- Firestore reads are optional documents;
- a failing read or write is an optional error code;
- clock readings are integer milliseconds or opaque timestamp strings.

Two handlers of the session and the error-clearing effect of the sign-in
form behave differently from what they evidently mean to do (see
"## Findings"). For each, the model keeps the code as written
(`…AsWritten` members, `AuthPage.Settle`, and the lemmas that exhibit the
difference) and a corrected routine. `Step` uses the corrected routines.
Everything else follows the code. In particular:
- a reply is queued for playback whatever the mode;
- a reply without feedback counts as an improvement;
- nothing stops turns after the session has been ended.

## Model

| member | source | states |
|---|---|---|
| Common.Trim | src/components/AuthPage.jsx:30-34 | `trim()` returns the part of the text between two all-white-space margins. The result neither starts nor ends with white space, and it is empty exactly when the text is all white space. |
| Common.IndexOfFrom | src/config/groq.js:84 | The index found is an occurrence at or after the start position with none before it. No index means there is no occurrence from there on. |
| Common.RemoveFirst | src/config/groq.js:87 | `replace(text, '')` cuts out the first occurrence. With no occurrence the text is unchanged. |
| Groq.FindRegion | src/config/groq.js:84 | The scan (first `{`, first key after it, first `}` after the key) returns the match a lazy regex selects: leftmost start, then shortest. It finds nothing exactly when no span matches. |
| Groq.RegionFirstOccurrence | src/config/groq.js:84-87 | The matched text first occurs at the match itself, so `replace` removes exactly the matched span. |
| Groq.ParseFeedback | src/config/groq.js:81-95 | With no match, or when the matched text does not parse, the result is the raw reply with no feedback. Otherwise it is the reply with the matched span cut out and trimmed, plus the parsed feedback. It never fails. |
| Groq.ParseFeedbackRoundTrip | src/config/groq.js:81-95 | Prose with one well-formed block (no `{` before it, the key inside, no `}` before its end) comes back as the surrounding prose, trimmed, with the block's parsed feedback. |
| Groq.GoalLines | src/config/groq.js:55-57 | The lines after the instructions name the goal right after "Current learning goal: ", and again just before the closing " practice.". |
| Groq.SystemPrompt | src/config/groq.js:54-57 | The system message is the fixed instructions followed by the lines naming the goal. |
| Groq.BuildRequest | src/config/groq.js:48-63 | The request is the system message, then the history in order, then the user message. Its length is the history's length plus 2, and the goal defaults to "fluency". |
| Groq.StartPractice | src/config/groq.js:48-77 | Without a client, nothing is sent and the fixed "not configured" error is returned. With one, the assembled request is sent, and the call succeeds exactly when the client replies. A failure with a client carries the fixed "request failed" message. |
| UseAuth.NewUserDoc | src/hooks/useAuth.js:103-123 | A new document starts with onboarding pending, an empty goal, 10 minutes, reminders on and dark mode off, and every progress counter at 0. Its creation and last-login times are the two clock readings taken in that order. |
| UseAuth.RouteFor | src/hooks/useAuth.js:150-156 | The dashboard exactly when the stored flag is true; onboarding otherwise, including when the document or flag is missing. |
| UseAuth.Register | src/hooks/useAuth.js:88-134 | A failed sign-up writes nothing and shows the mapped error. With a non-empty name, a failed profile update also writes nothing and shows its error. Otherwise the new-user document is written. Navigation to onboarding happens exactly when the sign-up, the profile update (if any) and the write all succeed. |
| UseAuth.Login | src/hooks/useAuth.js:136-165 | A failed sign-in writes nothing and shows the mapped error. A successful one merges `lastLoginAt`. A failed merge, or a failed read of the document after it, shows that step's mapped error. It navigates exactly when the sign-in, the merge and the read all succeed, and goes to the dashboard exactly when the stored flag is true. |
| UseAuth.GoogleSignIn | src/hooks/useAuth.js:27-86 | A rejected redirect, or a failed read of the user's document, writes nothing and shows the mapped error. Otherwise a first-time Google user gets a new document (name and photo default to empty) and a returning user gets a `lastLoginAt` merge. It navigates exactly when that write succeeds: a new user to onboarding, a returning one on the stored flag. A failed write shows its error. |
| UseAuth.ReturningGoogleUserKeepsRecord | src/hooks/useAuth.js:73-85 | For a returning Google user, the stored record changes in `lastLoginAt` only. |
| UseAuth.ErrorMessage | src/hooks/useAuth.js:204-227 | Total. A code outside the nine named ones gets the generic message, and a named code never does. |
| UseAuth.ErrorMessagesDistinct | src/hooks/useAuth.js:204-227 | Two different named codes get two different messages. |
| UseAuth.EmailInUseMentionsExistingAccount | src/hooks/useAuth.js:210-211 | The duplicate-account message contains "email already exists", the phrase the sign-in form looks for. |
| AuthPage.LooksLikeEmail | src/components/AuthPage.jsx:36 | True exactly when the unanchored pattern `\S+@\S+\.\S+` matches somewhere in the text. |
| AuthPage.FormErrors | src/components/AuthPage.jsx:27-48 | Each field gets its error exactly under its condition: the name when registering with a blank name; email "required" when blank, else "invalid" when it does not look like an email, never both; password "required" when empty, else "too short" only when registering; terms when registering without agreeing. |
| AuthPage.ValidateForm | src/components/AuthPage.jsx:27-52 | The form is valid exactly when no error is recorded, which is exactly the conjunction of the field conditions. Only the error record changes. |
| AuthPage.SignInAcceptsShortPassword | src/components/AuthPage.jsx:40-44 | Signing in accepts a non-empty password shorter than six characters. |
| AuthPage.InputChange | src/components/AuthPage.jsx:82-96 | Only the edited field takes the new value. Only that field's error is blanked, and only if it had one. The error keys and every other error stay as they were. |
| AuthPage.SetTerms | src/components/AuthPage.jsx:266-267 | The checkbox changes and nothing else does. |
| AuthPage.ToggleMode | src/components/AuthPage.jsx:98-104 | The mode flips, and every field, the checkbox, the field errors and the authentication error are cleared. |
| AuthPage.ToggleModeTwice | src/components/AuthPage.jsx:98-104 | Toggling twice gives a blank form in the original mode, whatever was typed. |
| AuthPage.Submit | src/components/AuthPage.jsx:54-70 | With the clearing effect run only on a mode switch: the authentication call is made exactly when the form is valid. An invalid form only shows its errors. A valid one shows the call's error, if any. |
| AuthPage.DuplicateAccountOffersSignIn | src/components/AuthPage.jsx:135-141 | With the clearing effect run only on a mode switch: a registration refused for a taken email makes the form offer sign-in, and taking the offer yields a blank sign-in form. |
| AuthPage.Settle | src/components/AuthPage.jsx:22-25 | The effect leaves no field error and no authentication error, and changes nothing else. |
| AuthPage.SubmitAsWritten | src/components/AuthPage.jsx:22-70 | As the page is written, the call is made exactly when the form is valid, and once the effect has run neither field errors nor an authentication error remain. The fields are as typed. |
| AuthPage.DuplicateOfferWiped | src/components/AuthPage.jsx:22-25 | As written, the sign-in offer a taken email produces is gone after the next commit. |
| AuthPage.TakenEmailExample | src/components/AuthPage.jsx:22-70 | A concrete valid registration ("Ann", "a@b.c", "secret", terms agreed) refused for a taken email: the submission offers sign-in, and as written the offer is gone after the next commit. |
| AuthPage.InvalidErrorsWiped | src/components/AuthPage.jsx:22-52 | As written, an invalid form's errors are recorded by the submission and gone after the next commit. |
| Onboarding.Initial | src/pages/Onboarding.jsx:25-33 | The wizard starts at step 1 with an empty goal, 10 minutes and no responses. |
| Onboarding.SelectGoal | src/pages/Onboarding.jsx:92-97 | Only the goal changes. |
| Onboarding.SelectTime | src/pages/Onboarding.jsx:99-104 | Only the daily minutes change. |
| Onboarding.Upsert | src/pages/Onboarding.jsx:106-119 | An existing prompt's answer is replaced in place, the length stays the same and the other entries are untouched. A new prompt is appended at the end. |
| Onboarding.AnswerFor | src/pages/Onboarding.jsx:334-336 | The answer shown for a prompt is recorded for it, and there is none exactly when the prompt has no entry. |
| Onboarding.AnswerForFirst | src/pages/Onboarding.jsx:334-336 | Like `find`, the answer comes from the first entry for the prompt. |
| Onboarding.UpsertRecords | src/pages/Onboarding.jsx:106-119 | After an upsert the prompt's answer is the new text and ids stay unique. Every other prompt's answer is unchanged. |
| Onboarding.UpsertIdempotent | src/pages/Onboarding.jsx:106-119 | Giving the same answer twice is the same as giving it once. |
| Onboarding.CanProceed | src/pages/Onboarding.jsx:121-132 | Step 1 needs a goal, step 2 needs positive minutes, step 3 is always allowed, and any other step never is. |
| Onboarding.Next | src/pages/Onboarding.jsx:134-138 | The step goes one forward unless it is at 3. Nothing else changes. |
| Onboarding.Previous | src/pages/Onboarding.jsx:140-144 | The step goes one back unless it is at 1. Nothing else changes. |
| Onboarding.NextPreviousInverse | src/pages/Onboarding.jsx:134-144 | Inside steps 1 to 3, back undoes forward and forward undoes back. |
| Onboarding.InitialReachable | src/pages/Onboarding.jsx:25-33 | The first screen satisfies the wizard's invariant. |
| Onboarding.ApplyKeepsReachable | src/pages/Onboarding.jsx:215-377 | Any button or input on the current screen keeps the invariant: step in 1..3, a chosen goal past step 1, an offered time, offered prompts with unique ids. |
| Onboarding.ActionsKeepReachable | src/pages/Onboarding.jsx:121-144 | Every sequence of user actions keeps the invariant. |
| Onboarding.Finish | src/pages/Onboarding.jsx:146-177 | Without a user nothing happens. Otherwise the update marks onboarding done and stores the chosen goal and minutes, with reminders on and dark mode off, plus the responses. The dashboard opens exactly when the update is stored. |
| Onboarding.ApplyUpdate | src/pages/Onboarding.jsx:152-164 | The update replaces the flag and the preferences and leaves progress and identity alone. |
| Onboarding.FinishedUserSignsInToDashboard | src/pages/Onboarding.jsx:152-167 | After onboarding is saved, the next sign-in goes to the dashboard and finds the chosen preferences. |
| PracticeSession.Init | src/components/PracticeSession.jsx:22-36 | The session mounts with voice mode and the microphone on and capture running, with no request, an empty log and zero stats. |
| PracticeSession.StopListening | src/components/PracticeSession.jsx:161-169 | Capture stops, the flag drops and the silence timer is cancelled. Nothing else changes. |
| PracticeSession.StartListeningAsWritten | src/components/PracticeSession.jsx:150-159 | Capture starts exactly when voice mode and the microphone are on in the state the caller was created in. |
| PracticeSession.StartListening | src/components/PracticeSession.jsx:150-159 | Refused unless voice mode and the microphone are on. Capture runs afterwards exactly when it ran before or both switches are on and nothing is being spoken. During playback the start is deferred to its end. The log is untouched. |
| PracticeSession.ToggleMicrophoneAsWritten | src/components/PracticeSession.jsx:171-180 | The microphone flips. When either switch is then off, capture is stopped. When both are on, capture is left exactly as it was. |
| PracticeSession.ToggleVoiceModeAsWritten | src/components/PracticeSession.jsx:182-191 | The same for the voice/text switch. |
| PracticeSession.ToggleMicrophone | src/components/PracticeSession.jsx:171-180 | The microphone flips, voice mode and the log do not change, and start or stop reads the new position. |
| PracticeSession.ToggleVoiceMode | src/components/PracticeSession.jsx:182-191 | Voice mode flips, the microphone and the log do not change, and start or stop reads the new position. |
| PracticeSession.FinalsEmpty | src/components/PracticeSession.jsx:89-96 | The assembled transcript is empty exactly when every final result in range has an empty transcript. |
| PracticeSession.CollectFinal | src/components/PracticeSession.jsx:87-94 | The loop yields the final transcripts from `resultIndex` on, concatenated in order. It is empty exactly when all of them are empty. |
| PracticeSession.OnResult | src/components/PracticeSession.jsx:86-109 | An empty final transcript changes nothing. A non-empty one becomes the trimmed draft and replaces any armed silence timer. Nothing else changes. |
| PracticeSession.SilenceTimerFires | src/components/PracticeSession.jsx:103-107 | The timer disarms. A blank transcript or a muted microphone submits nothing. |
| PracticeSession.AutoSubmit | src/components/PracticeSession.jsx:213-219 | Refused for empty text or while loading. Otherwise capture stops, "processing voice" is set, and a spoken request with that text is in flight. |
| PracticeSession.SendMessage | src/components/PracticeSession.jsx:232-237 | Refused for a blank draft or while loading. Otherwise a typed request with the trimmed draft is in flight. |
| PracticeSession.EffectiveGoal | src/components/PracticeSession.jsx:261 | The stored goal when it is non-empty, and "fluency" otherwise. Never empty. |
| PracticeSession.OutboundHistory | src/components/PracticeSession.jsx:254-257 | One chat message per log entry with the same content and order. The role is "user" exactly for the user's entries and "assistant" for all others. |
| PracticeSession.ProcessMessage | src/components/PracticeSession.jsx:239-263 | Refused for empty text or while loading. Otherwise exactly the user's entry is appended and the request carries the log from before it. Nothing else changes. |
| PracticeSession.Tally | src/components/PracticeSession.jsx:283-287 | A reply counts one message. It counts one correct-grammar mark exactly when the grammar fix is "None". It counts one improvement unless the better phrase is "None", so a reply without feedback counts one. |
| PracticeSession.StatsOfAppend | src/components/PracticeSession.jsx:283-287 | Appending an entry adds exactly its credit to the recomputed stats. |
| PracticeSession.StatsOfUserEntry | src/components/PracticeSession.jsx:249 | A user's entry adds nothing to the stats. |
| PracticeSession.StatsOfAnswer | src/components/PracticeSession.jsx:275-299 | An answer to a user's entry adds its tally. An apology adds nothing. |
| PracticeSession.Answer | src/components/PracticeSession.jsx:259-299 | The AI entry is an error exactly when the call fails. On success it holds the parsed response and feedback. On failure it holds the fixed apology with no feedback. |
| PracticeSession.Record | src/components/PracticeSession.jsx:275-301 | The answer is appended. A successful answer is queued for playback and tallied, and an apology changes neither. The request ends and the draft clears. Capture and playback do not change. |
| PracticeSession.Complete | src/components/PracticeSession.jsx:219-236 | With no request in flight nothing happens. Otherwise the answer is appended, the request ends and the draft clears. The stats grow by the answer's tally and the reply is queued for playback exactly when it is not an error. Capture and playback are untouched. A spoken turn clears "processing voice" and arms one start exactly in voice mode. A typed turn changes neither. |
| PracticeSession.EndTurn | src/components/PracticeSession.jsx:221-229 | A spoken turn clears "processing voice" and, in voice mode, arms one restart of capture. A typed turn changes nothing here. The log, the stats and capture are untouched. |
| PracticeSession.SpeakTextAsWritten | src/components/PracticeSession.jsx:345-369 | Capture is stopped only if the on-screen flag is up, and resuming afterwards is asked for only in that case. |
| PracticeSession.SpeakText | src/components/PracticeSession.jsx:345-369 | Playback never overlaps capture. Capture resumes afterwards exactly when it ran before or a deferred start is pending. |
| PracticeSession.SpeakTimerFires | src/components/PracticeSession.jsx:277-280 | The oldest queued reply leaves the queue and is being spoken. |
| PracticeSession.SpeakTimerFiresAsWritten | src/components/PracticeSession.jsx:277-280 | The oldest queued reply is spoken, with a resume request exactly when the flag is up. |
| PracticeSession.SpeechEnded | src/components/PracticeSession.jsx:363-369 | Playback ends, and a restart is armed exactly when resuming was asked for and both switches are still on. |
| PracticeSession.StartTimerFires | src/components/PracticeSession.jsx:224-229 | With no start armed nothing happens. Otherwise one start is used up. Capture afterwards runs exactly when it ran before or both switches are on and nothing is being spoken. During playback the start is deferred to its end. The switches and the turn stay. |
| PracticeSession.StartTimerFiresAsWritten | src/components/PracticeSession.jsx:224-229 | With both switches on, the armed start turns capture on whatever is being spoken. |
| PracticeSession.OnError | src/components/PracticeSession.jsx:111-127 | "no-speech" arms one restart. Any other error only drops the flag. Neither touches the turn or the recognizer. |
| PracticeSession.RestartTimerFiresAsWritten | src/components/PracticeSession.jsx:115-123 | In voice mode the restart turns capture on whatever is being spoken. |
| PracticeSession.RestartTimerFires | src/components/PracticeSession.jsx:115-123 | The restart runs capture only in voice mode and never during playback. It leaves the flag and the turn alone. |
| PracticeSession.OnEnd | src/components/PracticeSession.jsx:129-132 | The recognizer has stopped and the flag drops. |
| PracticeSession.WelcomeFor | src/components/PracticeSession.jsx:194-202 | Any goal other than interview, travel or academic gets the fluency welcome. |
| PracticeSession.LoadPreferences | src/components/PracticeSession.jsx:49-70 | The preferences are kept. An empty log gets exactly the welcome line for the goal, and a non-empty log is untouched. |
| PracticeSession.RoundMinutes | src/components/PracticeSession.jsx:307 | The duration is the nearest whole minute, with halves rounding up. |
| PracticeSession.EndSession | src/components/PracticeSession.jsx:305-343 | Capture stops. The summary is the rounded duration plus the running stats, the same in every mode and whatever the write does. Outside demo mode the counters are incremented by the duration, 1 and 1. |
| SessionProofs.InitInv | src/components/PracticeSession.jsx:22-36 | The mounted session satisfies the invariant and is echo-free. |
| SessionProofs.ProcessMessageInv | src/components/PracticeSession.jsx:239-250 | An accepted turn establishes the invariant: the request answers the new last entry, and the stats still match the log. |
| SessionProofs.SilenceTimerInv | src/components/PracticeSession.jsx:213-219 | The silence timer keeps the invariant. |
| SessionProofs.SendInv | src/components/PracticeSession.jsx:232-237 | Sending keeps the invariant. |
| SessionProofs.CompleteInv | src/components/PracticeSession.jsx:265-302 | The reply keeps the invariant: the running stats grow by exactly the new entry's credit. |
| SessionProofs.StepInv | src/components/PracticeSession.jsx:86-398 | With the corrected routines, every event keeps the invariant, ending the session included. |
| SessionProofs.StepEchoFree | src/components/PracticeSession.jsx:347-351 | With the corrected routines, no event starts capture during playback or playback during capture. |
| SessionProofs.RunInv | src/components/PracticeSession.jsx:86-398 | With the corrected routines, every state reached by any events from an invariant, echo-free state is invariant and echo-free. |
| SessionProofs.StepExtendsLog | src/components/PracticeSession.jsx:249-287 | With the corrected routines, one event never changes or removes an entry, adds at most one, and never decreases a counter. |
| SessionProofs.RunExtendsLog | src/components/PracticeSession.jsx:249-287 | With the corrected routines, across any events the log only grows at its end and no counter decreases. |
| SessionProofs.StepAsWrittenInv | src/components/PracticeSession.jsx:86-398 | With the routines as written, every event keeps the invariant. Echo-freedom is not kept. |
| SessionProofs.RunAsWrittenInv | src/components/PracticeSession.jsx:86-398 | With the routines as written, every state reached by any events from an invariant state is invariant. |
| SessionProofs.StepAsWrittenExtendsLog | src/components/PracticeSession.jsx:249-287 | With the routines as written, one event never changes or removes an entry, adds at most one, and never decreases a counter. |
| SessionProofs.RunAsWrittenExtendsLog | src/components/PracticeSession.jsx:249-287 | With the routines as written, across any events the log only grows at its end and no counter decreases. |
| SessionProofs.TurnsRefused | src/components/PracticeSession.jsx:214-240 | Sending while loading or with a blank draft changes nothing. While loading, the silence timer only disarms. |
| SessionProofs.TypedTurn | src/components/PracticeSession.jsx:232-303 | A typed turn and its reply append exactly the trimmed text and one answer. On success the answer is the parsed reply, queued and tallied. On failure it is the apology marked as an error, with the stats unchanged. |
| SessionProofs.BurstKeepsLatest | src/components/PracticeSession.jsx:96-107 | With two final results in a row, the timer holds the second, and only that transcript, trimmed, is submitted. |
| SessionProofs.ToggleAgreement | src/components/PracticeSession.jsx:171-191 | After either corrected switch, capture runs exactly when both switches are on and nothing is being spoken, and the flag agrees with it. |
| SessionProofs.ToggleOnAsWrittenNeverStarts | src/components/PracticeSession.jsx:171-191 | As written, switching the microphone or voice mode back on leaves capture stopped although both are on. |
| SessionProofs.MicOffOnCounterexample | src/components/PracticeSession.jsx:171-180 | Mount, microphone off, microphone on: as written nothing is captured; with the corrected switch capture runs. |
| SessionProofs.SpokenReplyEcho | src/components/PracticeSession.jsx:224-229 | As written, a spoken turn's reply is captured by the recognizer while it is spoken. With the corrected routines, capture waits for playback to end and then resumes. |
| SessionProofs.TurnsAfterEnd | src/components/PracticeSession.jsx:305-343 | After end-session, a typed turn is still accepted: the trimmed draft is appended and a request is in flight. |
| Dashboard.FromStored | src/pages/Dashboard.jsx:22 | The dashboard shows the stored streak, session count and minutes. |
| Dashboard.LoadProgress | src/pages/Dashboard.jsx:14-36 | A missing document or failed read changes nothing. A document without progress shows zeros. Otherwise the stored counters are shown. |
| Dashboard.OpenPractice | src/pages/Dashboard.jsx:145 | The practice view opens and the counters stay. |
| Dashboard.PracticeComplete | src/pages/Dashboard.jsx:38-46 | The practice view closes. The streak and sessions go up by 1 and the minutes by the duration, with a missing counter or record read as 0. |
| Dashboard.ApplyIncrement | src/components/PracticeSession.jsx:321-326 | The stored minutes, sessions and streak grow by the increments. The other counters stay. |
| Dashboard.LocalBumpMatchesStore | src/pages/Dashboard.jsx:38-46 | Outside demo mode, when the store write succeeds, the counters shown after a session equal the stored record with the session's increments applied. |
| Dashboard.FailedWriteStillBumps | src/components/PracticeSession.jsx:334-341 | When the session's store write fails, completion is still reported, so the dashboard shows one more session than the unchanged stored record holds. |
| Dashboard.FirstSessionFromNewAccount | src/pages/Dashboard.jsx:14-46 | A new account's first session shows a streak of 1, 1 session and the session's minutes. |

## Left out

- Network, Firestore and Firebase Auth calls: they are foreign I/O. Their outcomes are parameters: a reply or failure, a user or an error code, an optional stored document, an optional write error.
- Browser speech APIs: recognition and synthesis are events in the model (results, errors, end, utterance end). An unsupported browser, where neither API exists, is not modelled.
- Voice selection for playback: it is a best-effort heuristic over the browser's voice list. The rate, pitch and volume are also left out.
- Real timer delays (1500, 1000, 500 and 100 ms): each armed timer is a pending event. Their firing order is the order of the events.
- React's stale closures: the recognizer callbacks are created once at mount and read mount-time state. Each handler is modelled as reading the current state. `setState` batching is modelled by treating each handler as one atomic transition.
- `isLoading` and `loading` spinners in the form, wizard and dashboard: presentation only. The session's `isLoading` is modelled as "a request is in flight".
- `lastPracticeAt` and `onboardingData.completedAt`: timestamps that are written but read by no modelled screen.
- `logout`: sign-out is foreign I/O. Its failure sets the hook's error, which the dashboard does not display.
- UseAuth.GoogleSignIn: a page load with no pending redirect (a null redirect result) does nothing and is not a call of it. Starting the redirect (`loginWithGoogle`) is foreign I/O, and its synchronous error path is not modelled.
- The model's `preferences` field keeps only the learning goal: the session reads nothing else of the stored preferences.
- A non-boolean truthy `onboardingCompleted` is read as the boolean it denotes.
- A missing user in the session (a crash on `user.uid` outside demo mode) is not modelled.
- Text lengths count characters, not UTF-16 code units. They differ only outside the Basic Multilingual Plane.
- `welcomeMessages[goal]` would also find inherited object keys such as "toString". Such goals are not modelled.
- PracticeSession.WelcomeFor: does not state that the four welcome lines differ from one another, because comparing the long literals is costly to prove.
- Groq.StartPractice: the client's reply is a string. A completion whose content is null is not modelled. In the program such a reply passes through `parseFeedback` unchanged, is appended as an AI entry with null content, and counts as one message and one improvement.

## Findings

| source | as written | input that shows it | evidently intended | confidence | as-written member | corrected member |
|---|---|---|---|---|---|---|
| src/components/AuthPage.jsx:22-25 | The effect that clears the errors lists `clearError` as a dependency. The hook builds a new `clearError` on every render, so the effect runs after every commit. Each run stores a fresh empty error record, which renders again. | Register with an email that is already taken: the error and the "Switch to Sign In" button are shown for one commit and then cleared. Submitting an invalid form shows its field errors for one commit only. | The errors stay until the user edits a field or switches mode, as with a stable `clearError` or the dependency list `[isRegister]`. | not executed | AuthPage.Settle, AuthPage.SubmitAsWritten, AuthPage.DuplicateOfferWiped, AuthPage.TakenEmailExample, AuthPage.InvalidErrorsWiped | AuthPage.Submit, AuthPage.DuplicateAccountOffersSignIn, AuthPage.ToggleMode |
| src/components/PracticeSession.jsx:171-191 | The switches store the new value. They then call `startContinuousListening`, whose guard at line 151 reads the switch values from before the toggle. | Mount (both on), microphone off, microphone on: both switches end on and nothing is captured. | Turning a switch back on restarts capture when both are on. | not executed | PracticeSession.ToggleMicrophoneAsWritten, PracticeSession.ToggleVoiceModeAsWritten, SessionProofs.MicOffOnCounterexample | PracticeSession.ToggleMicrophone, PracticeSession.ToggleVoiceMode, SessionProofs.ToggleAgreement |
| src/components/PracticeSession.jsx:224-229 | After a spoken turn, capture restarts 1000 ms after the reply arrives. The reply's playback starts at 100 ms and did not stop capture, because capture was already off then (line 217). So playback asked for no resume, and the restart starts capture while the reply is still being spoken. The "no-speech" restart (lines 115-123) has the same effect. | A spoken turn with a successful reply, then the 100 ms playback timer, then the 1000 ms restart timer: capture runs during playback. | Capture stays off while a reply is spoken, as the comment at line 347 says, and resumes after it. | not executed | PracticeSession.SpeakTextAsWritten, PracticeSession.StartTimerFiresAsWritten, PracticeSession.RestartTimerFiresAsWritten, SessionProofs.SpokenReplyEcho | PracticeSession.SpeakText, PracticeSession.StartListening, PracticeSession.RestartTimerFires, SessionProofs.StepEchoFree |
