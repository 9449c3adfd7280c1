# SpeakLevel test session, history store and evaluator decisions

A Dafny model of the logic core of a browser app that assesses spoken English.
The user reads a fixed list of sentences aloud. Each recording is sent to a
generative-AI evaluator, which scores accuracy, intonation and fluency. After
the last sentence the app averages the scores, buckets the overall score into a
CEFR level (A1 to C2) and saves the attempt, newest first, in the browser's
local storage.

Modules, one per source file:

- `Types` (`types.ts`): the CEFR enum, `Sentence`, `EvaluationResult` and
  `TestAttempt` as datatypes. Scores are `real`. `Sentence.difficulty` is a
  subset type `1..5`, following the field's comment.
- `Gemini` (`services/gemini.ts`): `getErrorResult` and the control flow of
  `analyzeSpeech`. This covers the key checks before the model call, the
  opening of the platform's key dialog, and the classification of caught
  errors. The model call itself is an input.
- `Storage` (`services/storage.ts`): `StorageManager` as a class over local
  storage. Storage is a map from key to the decoded JSON array, and the
  history lives under `speaklevel_ai_history`.
- `Test` (`components/Test.tsx`): the arithmetic of `finishTest` as functions
  and lemmas. The page state (`currentIndex`, `isRecording`, `isAnalyzing`,
  `results`, `permissionError`, `errorToast`) is a class whose methods are the
  two handlers.
- `Text` and `Wrappers`: JavaScript's `String.prototype.includes`, which the
  code uses to sniff messages, and an `Option` type.

Inputs that stand for the outside world:

- whether the microphone starts (`microphoneReady`);
- what stopping and evaluating delivered (`StopOutcome`);
- the injected key (`Option<string>`; the empty string counts as absent, as in
  JavaScript);
- the platform dialog (`Platform`);
- the model call's outcome (`CallOutcome`);
- the clock readings used as attempt id and date (plain strings).

The number of sentences N is the length of the session's sentence list, which
must be non-empty.

Behaviour of the code worth knowing:

- The level thresholds are 95/80/60/40/20, with strict `>`. So a uniform
  score of 80 gives B2 (`UniformEightyIsB2`).
- Only an evaluation with zero accuracy and "API" in its feedback is rejected.
  A generic failure (a network error or an empty reply) is appended as a
  zero score, and the session moves on.
- Attempt ids are not checked for uniqueness. Lookup returns the newest match.

## Model

| member | source | states |
|---|---|---|
| `Types.LevelOfValue` | types.ts:2-9 | helper for the round trip below: reading a string back as a level yields only the level whose enum value is that string |
| `Types.CEFRLevel.Value` | types.ts:3-8 | each level's string value is two characters: the letter and the digit of its own name, in rank order (A1, A2, B1, B2, C1, C2) |
| `Types.ValueRoundTrip` | types.ts:2-9 | each of the six levels' string values reads back as that same level, so the values are distinct |
| `Types.RankInjective` | types.ts:2-9 | the order A1 < A2 < B1 < B2 < C1 < C2 ranks the six levels without ties; used to show the level of a score is unique |
| `Text.IncludesIffOccurs` | components/Test.tsx:52 | the left-to-right `includes` scan succeeds exactly when the searched text occurs as a contiguous run |
| `Text.Includes` | components/Test.tsx:52 | JavaScript's `includes` as used here and at services/gemini.ts:89: a match needs a needle no longer than the text, and the empty needle always matches |
| `Text.MissingCharExcludes` | services/gemini.ts:89 | a message lacking one character of the searched text cannot include it |
| `Gemini.ErrorResult` | services/gemini.ts:98-106 | the failure result has accuracy, intonation and fluency 0, transcribed "[분석 실패]" and the given message as feedback |
| `Gemini.FailureDeterminedByFeedback` | services/gemini.ts:98-106 | any result with the three zero scores and the failure marker is exactly the failure result of its own feedback |
| `Gemini.Caught` | services/gemini.ts:81-89 | the guarded block throws unless the model's reply text is non-empty; an empty reply throws "No response text from Gemini"; any other thrown error is caught with its own (possibly missing) message, which the key test then inspects |
| `Gemini.HasKey` | services/gemini.ts:24-33 | the `!apiKey` truthiness test: a key counts exactly when it is present and non-empty, so undefined and the empty string both count as missing |
| `Gemini.IsKeyError` | services/gemini.ts:89 | a caught error is key-related exactly when it has a message in which "API key" or "not found" occurs |
| `Gemini.NotKeyErrorWithout` | services/gemini.ts:89 | helper for classifying fixed messages: a caught message lacking both 'A' and 'u' mentions neither "API key" nor "not found" |
| `Gemini.EmptyReplyIsGeneric` | services/gemini.ts:82-94 | the empty-reply error, and so the error caught for any empty reply, is not key-related, so it yields the generic failure |
| `Gemini.AnalyzeSpeech` | services/gemini.ts:18-96 | no key with a dialog reporting no selection opens the dialog and returns "key not set"; no key otherwise returns "key not found" without opening anything; the guarded block that builds the client, reads the audio and calls the model is entered exactly when a key is present; a non-empty reply is returned as parsed; a caught error mentioning "API key" or "not found" reopens the dialog if one exists and returns "key invalid"; every other caught error returns the generic failure; every result is the parsed reply or a failure with one of the four messages |
| `Gemini.KeyMessagesMentionApi` | services/gemini.ts:29-94 | the "not set", "not found" and "invalid" messages contain "API" and the generic message does not |
| `Storage.FindById` | services/storage.ts:22-25 | lookup finds nothing exactly when no entry has the id, and otherwise returns the first (newest) entry with the id |
| `Storage.SaveShifts` | services/storage.ts:7-11 | prepending grows the history by one, puts the new attempt first and moves each earlier entry back one place unchanged |
| `Storage.FindSaved` | services/storage.ts:7-25 | right after a save, looking up the saved attempt's id returns that attempt |
| `Storage.FindOthersAfterSave` | services/storage.ts:7-25 | a save leaves the lookup of every other id unchanged |
| `Storage.HistoryStore.History` | services/storage.ts:13-16 | the history is the empty list when the key is absent and the stored array otherwise |
| `Storage.HistoryStore.AttemptById` | services/storage.ts:22-25 | looking up an id in the stored history finds nothing exactly when no stored attempt has that id, and otherwise returns the first (newest) stored attempt with it |
| `Storage.HistoryStore.SaveAttempt` | services/storage.ts:7-11 | the history becomes the attempt followed by the old history, only the history key is written, the saved id now finds the attempt and every other id's lookup is unchanged |
| `Storage.HistoryStore.ClearHistory` | services/storage.ts:18-20 | only the history key is removed; afterwards the history is empty and no id is found |
| `Test.Total` | components/Test.tsx:77-79 | the `reduce` left fold summing one field over the results; non-negative scores give a non-negative total |
| `Test.Average` | components/Test.tsx:77-79 | the fold divided by the count: the average times the count is the field's total |
| `Test.TotalWithin` | components/Test.tsx:77-79 | scores within [0, 100] give a field total within [0, 100 times the count] |
| `Test.TotalOfUniform` | components/Test.tsx:77-79 | equal scores s give a field total of s times the count |
| `Test.AverageWithin` | components/Test.tsx:77-79 | scores within [0, 100] give a field average within [0, 100] |
| `Test.AverageOfUniform` | components/Test.tsx:77-79 | the average of equal scores is that score |
| `Test.LevelFor` | components/Test.tsx:82-87 | the level is the highest one whose threshold (A2 20, B1 40, B2 60, C1 80, C2 95) the score strictly exceeds, and A1 when it exceeds none |
| `Test.LevelUnique` | components/Test.tsx:82-87 | the highest level the score reaches is unique: any level meeting that description is the one the if-chain picks |
| `Test.LevelMonotone` | components/Test.tsx:82-87 | a higher score never gives a lower level |
| `Test.LevelBoundaries` | components/Test.tsx:82-87 | a score equal to a threshold falls below it: 95 is C1, 80 is B2, 60 is B1, 40 is A2, 20 is A1 |
| `Test.FinishTest` | components/Test.tsx:76-96 | the attempt keeps the id, date and results in order; each average is the field's total over the count; the overall score is the mean of the three averages and lies between the smallest and the largest; the level is the highest one the overall score reaches |
| `Test.FinishTestWithin` | components/Test.tsx:77-80 | if every score lies in [0, 100], so do the three averages and the overall score |
| `Test.FinishTestUniform` | components/Test.tsx:77-87 | if every score is s, the overall score is s and the level is the level of s |
| `Test.UniformEightyIsB2` | components/Test.tsx:77-87 | a session scored 80 on every field is rated B2 |
| `Test.Rejected` | components/Test.tsx:52 | the handler's check: an evaluation is rejected exactly when its accuracy is 0 and "API" occurs in its feedback |
| `Test.FailureRejectedIffKeyFailure` | components/Test.tsx:52-59 | among the evaluator's failure results, the handler rejects exactly the three key failures; the generic failure passes and is appended |
| `Test.TestSession.constructor` | components/Test.tsx:15-20 | a new session is at prompt 0 with no results, nothing recording or analysing, no permission error and no toast |
| `Test.TestSession.Progress` | components/Test.tsx:23 | the progress percentage lies in [0, 100) and is 0 exactly at the first prompt |
| `Test.TestSession.StartRecording` | components/Test.tsx:33-43 | the toast is cleared; the permission flag ends up true exactly when the microphone fails; recording starts on success and is left as it was on failure; the index and results do not change |
| `Test.TestSession.StopRecording` | components/Test.tsx:45-74 | recording stops; a thrown error sets the retry toast; a rejected evaluation sets its feedback as the toast; both clear analysing and keep results and index. Any other evaluation is appended after the earlier ones. The index then advances by one before the last prompt. At the last prompt the attempt built from exactly N results is saved first in the history. The store changes only then, and then only under the history key; the invariant (one result per finished prompt, index below N) is kept |

## Left out

- Audio capture (`services/audio.ts`) is device I/O. Whether the microphone started and whether stopping threw are inputs.
- The network request to the model, the FileReader base64 step and `JSON.parse`/`JSON.stringify` are foreign calls. Their outcome is the `CallOutcome` input; JSON text is identified with the value it encodes.
- Gemini.AnalyzeSpeech: a rejection from `hasSelectedApiKey` or `openSelectKey` escapes the method in the source. Here it is one case of the handler's `Failed` outcome.
- Test.TestSession.StopRecording / Storage.HistoryStore.SaveAttempt: a local-storage write that throws (full quota, storage disabled) is not modelled, and the final save always succeeds here. In the source, such an exception from the last save is thrown inside the timer callback, after the handler's try block has ended. It is not caught, nothing is saved, no retry toast appears and the page stays in the analysing state.
- Test.TestSession.StopRecording: the awaits and the 800 ms timer are taken as completed at once. React's deferred, possibly stale state updates and `navigate` to the result page are not modelled.
- Test.TestSession.StopRecording: the evaluation it receives is an input and not the output of `Gemini.AnalyzeSpeech`. The two are connected by `Test.FailureRejectedIffKeyFailure`.
- `handleOpenKeySelector` only opens the platform dialog and sets a toast; it is not modelled.
- Scores are `real`: IEEE-754 rounding of the averages and of the progress percentage is not modelled.
- `Date.now()` and `toISOString()` are arbitrary strings, so no claim is made about timestamps.
- Rendering, routing and charts (`App.tsx`, `Home.tsx`, `Result.tsx`, `History.tsx`) and the `LevelCriteria` display type are not modelled.
- The sentence constants file is not part of this model. N is the length of the sentence list given to the session.
- A value other than a JSON array stored under the history key by another program is not modelled.
