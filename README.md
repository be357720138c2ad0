# AuoraMind learning front end, modelled in Dafny

AuoraMind is an offline-first learning app for students. It has a React front end and a Supabase edge function that forwards tutoring chats to an AI gateway. This project models the front end's behaviour: the shared lesson store, and the state machines and derivations of thirteen components. It also models the edge function `ai-tutor`.

Each source file has its own module:

| module | source file | form |
|---|---|---|
| `LessonStore` | `src/store/lessonStore.ts` | class `Store` over a `State` value; actions specified by pure functions |
| `LessonPlayer` | `src/components/LessonPlayer.tsx` | class `Player` (step cursor) writing into a `Store` |
| `LessonBrowser` | `src/components/LessonBrowser.tsx` | pure subject list and filter; class `Browser` for the local state |
| `ProgressDashboard` | `src/components/ProgressDashboard.tsx` | pure statistics |
| `AIAnalysisPanel` | `src/components/AIAnalysisPanel.tsx` | insight rules as a method; pure pace bar and slices |
| `MCQTest` | `src/components/MCQTest.tsx` | class `Test`; scoring loop as a method over a recursive specification |
| `LabExperiment` | `src/components/LabExperiment.tsx` | class `Lab`; data generators as loop methods |
| `StudyMaterialBrowser` | `src/components/StudyMaterialBrowser.tsx` | class `Browser` with four selection fields over fixed tables |
| `TutorChat` | `src/components/TutorChat.tsx` | class `Chat`; pure reply generator |
| `AITutorProxy` | `supabase/functions/ai-tutor/index.ts` | pure request shaping and status mapping |
| `LoginModal` | `src/components/LoginModal.tsx` | class `Modal`; pure validation and record construction |
| `ProfileGrid` | `src/components/ProfileGrid.tsx` | class `Grid` with a storage field |
| `LoadingScreen` | `src/components/LoadingScreen.tsx` | class `Screen` ticked by random draws |
| `ThreeDVisualization` | `src/components/ThreeDVisualization.tsx` | class `Viewer`; pure zoom clamps and drawing dispatch |
| `FloatingBooks` | `src/components/FloatingBooksBackground.tsx` | class `Book` ticked in place; pure 3-D maths; in-place face sort on an array |

`Common` holds `Option`. `Text` holds the parts of JavaScript's string API that the components use: `toString` on naturals, `padStart(2, '0')`, ASCII `toLowerCase`, `includes` and `trim() === ''`.

Timers become explicit method calls: every `setInterval` tick and every `setTimeout` continuation is one call. `Math.random()` draws, `Date.now()`, ISO dates and the sines and cosines are parameters. A React state setter becomes an assignment to a class field. A closure that captured an older value of a field keeps that value in a field of its own: `Lab.observationsAtStart`, `Test.answersAtMount` and `Chat.pending`.

## Model

| member | source | states |
|---|---|---|
| `Text.NatToString` | src/components/TutorChat.tsx:107 | `Date.now().toString()`: a nonempty string of decimal digits, one digit exactly for values below 10 |
| `Text.ParseNatToString` | src/components/TutorChat.tsx:107 | the decimal rendering reads back as the same number, so distinct times give distinct ids |
| `Text.Pad2` | src/components/MCQTest.tsx:87 | `padStart(2, '0')` of a value below 100 is exactly two digits |
| `Text.ParsePad2` | src/components/MCQTest.tsx:87 | the two padded digits read back as the value |
| `Text.ToLower` | src/components/LessonBrowser.tsx:16-17 | lower-casing keeps the length; each character `A`..`Z` becomes the letter 32 code points up, every other character is kept |
| `LessonStore.InitialStateFacts` | src/store/lessonStore.ts:28-98 | the store starts with three lessons, none completed and each with content, an empty progress map and no current lesson |
| `LessonStore.MarkCompleted` | src/store/lessonStore.ts:101-103 | the `map` keeps length and order, marks the lessons with that id completed and leaves every other lesson equal |
| `LessonStore.SetCurrentFrame` | src/store/lessonStore.ts:99 | `setCurrentLesson` sets the current lesson and changes neither lessons nor progress |
| `LessonStore.CompleteEffect` | src/store/lessonStore.ts:100-105 | `completeLesson(id)`: same number and ids of lessons; a lesson is completed afterwards iff it was before or has that id; other lessons unchanged; `progress[id] = 100`, other keys kept, no key added but `id`; current lesson kept |
| `LessonStore.CompleteIdempotent` | src/store/lessonStore.ts:100-105 | completing the same id twice equals completing it once |
| `LessonStore.CompleteUnknownId` | src/store/lessonStore.ts:101-104 | an id no lesson has leaves the lessons unchanged and still writes `progress[id] = 100` |
| `LessonStore.UpdateProgressFrame` | src/store/lessonStore.ts:106-108 | `updateProgress(id, p)` writes `progress[id] = p` only; lessons, current lesson and other keys are untouched |
| `LessonStore.Store.constructor` | src/store/lessonStore.ts:96-98 | the store instance starts in the initial state |
| `LessonStore.Store.SetCurrentLesson` | src/store/lessonStore.ts:99 | the new store value is `SetCurrent` of the old one |
| `LessonStore.Store.CompleteLesson` | src/store/lessonStore.ts:100-105 | the new store value is `Complete` of the old one |
| `LessonStore.Store.UpdateProgress` | src/store/lessonStore.ts:106-108 | the new store value is `WithProgress` of the old one |
| `LessonPlayer.StepPercentRange` | src/components/LessonPlayer.tsx:17-18 | the step percentage of an in-range step lies in (0, 100] |
| `LessonPlayer.StepPercentIs100Iff` | src/components/LessonPlayer.tsx:17-38 | the percentage is 100 exactly on the last step (`isLastStep`), so the completion overlay of line 174 shows exactly there |
| `LessonPlayer.StepPercentMonotone` | src/components/LessonPlayer.tsx:17-18 | a step forward strictly raises the percentage |
| `LessonPlayer.Player.IsLastStep` | src/components/LessonPlayer.tsx:38 | `isLastStep` holds iff the shown progress is 100 |
| `LessonPlayer.Player.constructor` | src/components/LessonPlayer.tsx:12-21 | mount: step 0; the effect sets the progress and pushes the same value into the store |
| `LessonPlayer.Player.SyncProgress` | src/components/LessonPlayer.tsx:17-21 | the effect sets `progress = (step + 1) / len * 100` and writes that value for this lesson into the store, nothing else |
| `LessonPlayer.Player.HandleNext` | src/components/LessonPlayer.tsx:23-29 | before the last step: one step forward and the new percentage stored; on the last step: cursor and progress kept, lesson completed in the store; the cursor stays in range |
| `LessonPlayer.Player.HandlePrevious` | src/components/LessonPlayer.tsx:31-35 | one step back and the new percentage stored when not at step 0; at step 0 nothing changes |
| `LessonPlayer.BackAfterCompleteKeepsCompleted` | src/components/LessonPlayer.tsx:23-35 | completing and then stepping back leaves the lesson completed while its stored progress is below 100 |
| `LessonBrowser.FirstIndex` | src/components/LessonBrowser.tsx:13 | the position of the first occurrence: it holds `x` and no earlier position does |
| `LessonBrowser.DistinctSpec` | src/components/LessonBrowser.tsx:13 | `[...new Set(xs)]` has exactly the elements of `xs`, each once, ordered by first appearance |
| `LessonBrowser.SubjectsOf` | src/components/LessonBrowser.tsx:13 | `lessons.map(l => l.subject)` position by position |
| `LessonBrowser.SubjectsSpec` | src/components/LessonBrowser.tsx:13 | the chips are `'all'` followed by every lesson subject exactly once, in order of first appearance |
| `LessonBrowser.Filter` | src/components/LessonBrowser.tsx:15-20 | a lesson is kept iff it is in the list and its lower-cased title or description contains the lower-cased term and the subject is `'all'` or matches |
| `LessonBrowser.FilterIsSublist` | src/components/LessonBrowser.tsx:15 | the filtered list is an order-preserving sublist of the lessons |
| `LessonBrowser.EmptyTermMatches` | src/components/LessonBrowser.tsx:16-17 | every text includes the empty search term |
| `LessonBrowser.EmptySearchKeepsAll` | src/components/LessonBrowser.tsx:15-20 | an empty search with `'all'` selected keeps every lesson in order |
| `LessonBrowser.NoLessonsFound` | src/components/LessonBrowser.tsx:137 | "No lessons found" shows iff the filter rejects every lesson |
| `LessonBrowser.Browser.constructor` | src/components/LessonBrowser.tsx:9-11 | empty search, `'all'` selected, no lesson open |
| `LessonBrowser.Browser.SetSearchTerm` | src/components/LessonBrowser.tsx:9 | the search box's setter |
| `LessonBrowser.Browser.SetSelectedSubject` | src/components/LessonBrowser.tsx:10 | the subject chip's setter |
| `LessonBrowser.Browser.HandleStartLesson` | src/components/LessonBrowser.tsx:22-25 | the store's current lesson and the opened player get the same lesson, and the store changes as `setCurrentLesson` says |
| `ProgressDashboard.CompletedCount` | src/components/ProgressDashboard.tsx:9-10 | at most the number of lessons; 0 iff none is completed; all iff every one is |
| `ProgressDashboard.CompletedCountIsIndexCount` | src/components/ProgressDashboard.tsx:9-10 | the count is exactly the number of positions that hold a completed lesson |
| `ProgressDashboard.CompletionRate` | src/components/ProgressDashboard.tsx:11 | 0 without lessons; otherwise 100 × (number of completed positions) / (number of lessons); so in [0, 100], 0 iff nothing is completed, 100 iff there are lessons and all are completed |
| `ProgressDashboard.TotalTimeSpent` | src/components/ProgressDashboard.tsx:13 | exactly 15 minutes per completed position: a multiple of 15, at most 15 per lesson |
| `ProgressDashboard.ChartLessons` | src/components/ProgressDashboard.tsx:101 | the chart shows the first `min(5, n)` lessons in order: all of them when there are fewer than five, otherwise the first five |
| `ProgressDashboard.BarPercent` | src/components/ProgressDashboard.tsx:110-116 | a bar is 100 iff the lesson is completed, else 0; the store's progress map plays no part |
| `ProgressDashboard.CompleteRaisesCount` | src/store/lessonStore.ts:100-103 | completing never lowers the completed count, and completing a present, open lesson raises it |
| `AIAnalysisPanel.GenerateInsights` | src/components/AIAnalysisPanel.tsx:25-64 | at most three insights ordered engagement, pacing, difficulty; "Excellent Engagement" present iff engagement > 85, and then first; "Engagement Boost" iff < 70; pacing iff the step exists with a duration and the time exceeds 1.5 × duration minutes; the advanced tip iff the step's difficulty is `'advanced'` |
| `AIAnalysisPanel.PaceWidth` | src/components/AIAnalysisPanel.tsx:114 | in (0, 100]; 100 iff the step is the last (or beyond, or there is no content); otherwise `(step + 1) / len * 100` |
| `AIAnalysisPanel.ObjectiveMarks` | src/components/AIAnalysisPanel.tsx:164-172 | the first three objectives, objective `i` active iff `i <= currentStep` |
| `AIAnalysisPanel.LastFive` | src/components/AIAnalysisPanel.tsx:187 | the last five entries, or all when there are fewer |
| `AIAnalysisPanel.AnalysisData` | src/components/AIAnalysisPanel.tsx:22 | the lesson's history, or empty when it has none |
| `AIAnalysisPanel.HistoryShown` | src/components/AIAnalysisPanel.tsx:182-187 | the history block shows iff there is an entry, and then shows one to five of the last entries |
| `MCQTest.FormatTimeRoundTrip` | src/components/MCQTest.tsx:84-88 | `formatTime` gives `m:ss` with two-digit seconds and reads back as the same number of seconds |
| `MCQTest.Unanswered` | src/components/MCQTest.tsx:64 | `new Array(n).fill(null)` has `n` empty slots |
| `MCQTest.ScoreCountsCorrect` | src/components/MCQTest.tsx:113-122 | the score is the number of questions answered with their correct option, so at most the number of questions |
| `MCQTest.UnansweredScoresZero` | src/components/MCQTest.tsx:113-122 | an unanswered (`null`) slot never scores, so an empty test scores 0 |
| `MCQTest.AllCorrectScoresAll` | src/components/MCQTest.tsx:113-122 | every question answered correctly scores full marks |
| `MCQTest.CountCorrect` | src/components/MCQTest.tsx:113-119 | the `forEach` loop's `finalScore` is the score |
| `MCQTest.Test.constructor` | src/components/MCQTest.tsx:60-66 | first question, nothing selected, score 0, all answers empty, 600 seconds left, not completed |
| `MCQTest.Test.HandleAnswerSelect` | src/components/MCQTest.tsx:90-95 | the current question's slot and the selection become `k`; every other slot keeps its answer |
| `MCQTest.Test.HandleNext` | src/components/MCQTest.tsx:97-103 | forward only before the last question, restoring that question's answer and hiding the result; otherwise nothing changes |
| `MCQTest.Test.HandlePrevious` | src/components/MCQTest.tsx:105-111 | back only after the first question, restoring that question's answer and hiding the result; otherwise nothing changes |
| `MCQTest.Test.CheckAnswer` | src/components/MCQTest.tsx:280-287 | "Check Answer" reveals the result |
| `MCQTest.Test.HandleFinishTest` | src/components/MCQTest.tsx:113-122 | the test completes with the score of the current answers |
| `MCQTest.Test.TimerTickAsWritten` | src/components/MCQTest.tsx:68-82 | as written: a tick lowers the time by one; at 1 or 0 it ends the test at time 0 with the mount-time answers, so score 0; nothing happens once completed |
| `MCQTest.Test.TimerTick` | src/components/MCQTest.tsx:68-82 | as intended: the same countdown, but a timeout scores the answers given so far |
| `MCQTest.Test.WrongAnswers` | src/components/MCQTest.tsx:156 | wrong answers plus score is the number of questions |
| `MCQTest.Test.TimeTaken` | src/components/MCQTest.tsx:160 | the time taken reads back as `600 - timeLeft` seconds |
| `MCQTest.TimeoutIgnoresAnswers` | src/components/MCQTest.tsx:68-122 | with every sample question answered correctly, the button scores 5 and the as-written timeout scores 0 |
| `LabExperiment.TickStepBounded` | src/components/LabExperiment.tsx:37-44 | with a positive duration a tick that does not finish strictly raises the progress and stays below 100 |
| `LabExperiment.TicksAccumulate` | src/components/LabExperiment.tsx:37-44 | from 0, `k` ticks reach exactly `k * 100 / (duration * 10)` while that is below 100 |
| `LabExperiment.Accuracy` | src/components/LabExperiment.tsx:76 | the simulated accuracy lies in [70, 100) |
| `LabExperiment.InsightFor` | src/components/LabExperiment.tsx:97-106 | the insight is one of the four fixed texts |
| `LabExperiment.GenerateExperimentData` | src/components/LabExperiment.tsx:84-95 | eleven readings at times 0..10 labelled `Measurement 1`..`Measurement 11`, value `sin * 50 + 50 + (r - 0.5) * 10`, so in [-5, 105) |
| `LabExperiment.GenerateDataPoints` | src/components/LabExperiment.tsx:338-349 | `floor(progress / 10) + 1` points, the i-th at x `i * 10` and y `100 - (50 + sin * 30 + (r - 0.5) * 10)` |
| `LabExperiment.PointCountRange` | src/components/LabExperiment.tsx:338-342 | a progress of 0..100 plots 1..11 points, and 100 plots 11 (the polyline of line 279 is drawn for a positive progress) |
| `LabExperiment.Lab.constructor` | src/components/LabExperiment.tsx:24-28 | first experiment, stopped, progress 0, no results, empty observations |
| `LabExperiment.Lab.StartExperiment` | src/components/LabExperiment.tsx:54-57 | callable only while the Start button is enabled (`StartEnabled`: stopped and not at 100, line 215); then running with progress 0, and the fresh interval captures the current observations |
| `LabExperiment.Lab.PauseExperiment` | src/components/LabExperiment.tsx:59-61 | stops; the progress is kept |
| `LabExperiment.Lab.ResetExperiment` | src/components/LabExperiment.tsx:63-68 | stopped, progress 0, no results, empty observations |
| `LabExperiment.Lab.SelectExperiment` | src/components/LabExperiment.tsx:126-129 | the tab's experiment is selected and everything is reset |
| `LabExperiment.Lab.SetObservations` | src/components/LabExperiment.tsx:193 | the text area's setter |
| `LabExperiment.Lab.CompleteExperiment` | src/components/LabExperiment.tsx:70-82 | one record appended and reported: current experiment's name, the time, the interval's observations, exactly the eleven labelled readings the wave and noise draws give, accuracy exactly `Accuracy` of its draw (so in [70, 100)), insight exactly `InsightFor` of its draw |
| `LabExperiment.Lab.Tick` | src/components/LabExperiment.tsx:32-52 | no effect while stopped; otherwise the progress advances by the increment, or it finishes: stops, stores exactly 100 and appends one record (and reports it) naming the current experiment, stamped `now`, with the observations captured at start, exactly the eleven labelled readings of the draws, and the accuracy and insight its draws select; progress stays in [0, 100] |
| `StudyMaterialBrowser.Classes` | src/components/StudyMaterialBrowser.tsx:11 | twelve class labels |
| `StudyMaterialBrowser.AvailableSubjects` | src/components/StudyMaterialBrowser.tsx:43 | empty without a class, else the table entry, or empty for a class not in the table |
| `StudyMaterialBrowser.AvailableChapters` | src/components/StudyMaterialBrowser.tsx:44 | empty without a subject, else the table entry, or empty for a subject not in the table |
| `StudyMaterialBrowser.ClassesSpec` | src/components/StudyMaterialBrowser.tsx:11-26 | the labels are exactly `Class 1`..`Class 12`, and every class has at least four subjects |
| `StudyMaterialBrowser.SubjectsWithoutChapters` | src/components/StudyMaterialBrowser.tsx:13-44 | Hindi, EVS, Social Science and Computer Science are offered but show no chapters |
| `StudyMaterialBrowser.SelectionsNest` | src/components/StudyMaterialBrowser.tsx:79-140 | in any reachable selection a chosen subject comes with a chosen class and board and is one of that class's table subjects; a chosen class has a table entry of at least four subjects |
| `StudyMaterialBrowser.Browser.constructor` | src/components/StudyMaterialBrowser.tsx:38-41 | nothing selected |
| `StudyMaterialBrowser.Browser.ChooseBoard` | src/components/StudyMaterialBrowser.tsx:79-84 | sets the board and clears class, subject and chapter; the column invariant holds |
| `StudyMaterialBrowser.Browser.ChooseClass` | src/components/StudyMaterialBrowser.tsx:101-112 | keeps the board, sets the class, clears subject and chapter; only offered once a board is chosen |
| `StudyMaterialBrowser.Browser.ChooseSubject` | src/components/StudyMaterialBrowser.tsx:130-140 | keeps board and class, sets the subject, clears the chapter; only offered once a class is chosen |
| `TutorChat.SourceWordingWellFormed` | src/components/TutorChat.tsx:56-80 | the source's two explain sentences differ from their first character on, and the solve steps are five |
| `TutorChat.Confidence` | src/components/TutorChat.tsx:54 | `0.85 + r * 0.14` lies in [0.85, 0.99) |
| `TutorChat.GenerateTutorResponse` | src/components/TutorChat.tsx:50-114 | a tutor message with id and timestamp from the clock, a confidence in [0.85, 0.99), and steps present iff the mode is `'solve'`, then exactly five |
| `TutorChat.UnknownModeEchoes` | src/components/TutorChat.tsx:100-103 | a mode outside the five buttons quotes the message back |
| `TutorChat.ExplainMentionsMathIff` | src/components/TutorChat.tsx:57-61 | in `'explain'` mode the reply continues with the mathematics sentence iff the lower-cased message contains "math" |
| `TutorChat.Chat.constructor` | src/components/TutorChat.tsx:20-31 | one tutor greeting (naming the user when signed in), empty input, not loading, mode `'explain'` |
| `TutorChat.Chat.SetInput` | src/components/TutorChat.tsx:256 | the input's setter |
| `TutorChat.Chat.SetMode` | src/components/TutorChat.tsx:178 | a mode button sets one of the five keys of lines 34-40 |
| `TutorChat.Chat.HandleSendMessage` | src/components/TutorChat.tsx:116-129 | when the send button would be disabled (`SendDisabled`: blank input, line 275) nothing changes; otherwise one user message with the untrimmed text is appended, the input cleared, loading set, and a reply scheduled with that text and mode |
| `TutorChat.Chat.DeliverReply` | src/components/TutorChat.tsx:131-135 | the continuation appends exactly one tutor reply for its captured text and mode and clears loading |
| `TutorChat.Chat.HandleKeyPress` | src/components/TutorChat.tsx:138-143 | Enter without Shift on a non-blank input sends: the user message is appended, the input cleared, loading set and one reply queued with the mode; any other key, or Enter on a blank input, changes nothing |
| `AITutorProxy.ServerError` | supabase/functions/ai-tutor/index.ts:115-126 | a 500 `server_error` with the CORS headers |
| `AITutorProxy.SourcePromptHasWebSentence` | supabase/functions/ai-tutor/index.ts:46 | the web-search sentence is not empty |
| `AITutorProxy.SystemPromptWebSentence` | supabase/functions/ai-tutor/index.ts:24-48 | with web search the prompt contains the sentence; without, it is the fixed text alone; the prompt is longer by the sentence iff web search is on |
| `AITutorProxy.BuildUpstream` | supabase/functions/ai-tutor/index.ts:50-66 | a POST with the bearer key, model `google/gemini-2.5-flash`, no streaming, temperature 0.7, 2000 tokens, and messages: the system prompt, then all client messages in order |
| `AITutorProxy.Prepare` | supabase/functions/ai-tutor/index.ts:9-66 | CORS on every early answer; OPTIONS iff an empty answer; forwarded iff not OPTIONS, the body parsed, the key set and `messages` present, and then exactly the gateway request; every other early answer a 500 `server_error` |
| `AITutorProxy.Complete` | supabase/functions/ai-tutor/index.ts:68-113 | CORS always; 429 iff the gateway said 429, with `rate_limit`; 402 iff it said 402, with `payment_required`; 200 iff an ok status with at least one choice, carrying the first choice's content, the model and the usage; every other outcome a 500 `server_error` |
| `AITutorProxy.Handle` | supabase/functions/ai-tutor/index.ts:8-128 | the early answer when there is one, else the mapped gateway reply; always with CORS |
| `AITutorProxy.PreflightNeverForwards` | supabase/functions/ai-tutor/index.ts:9-11 | a preflight gets an empty 200 with CORS whatever the gateway would say |
| `AITutorProxy.MissingKeyIsServerError` | supabase/functions/ai-tutor/index.ts:17-19 | without a key the client gets the 500 `server_error` of lines 115-126 naming the missing key |
| `AITutorProxy.OtherFailuresAreServerErrors` | supabase/functions/ai-tutor/index.ts:98 | a failing status other than 429 and 402 becomes the 500 `server_error` of lines 115-126, naming the status and text |
| `LoginModal.UpdateField` | src/components/LoginModal.tsx:106 | a field's change handler (here the name's; lines 122, 140, 166, 181 and 199 for the others) sets that field and keeps every other |
| `LoginModal.Avatar` | src/components/LoginModal.tsx:41 | 🎓 iff student, 👨‍🏫 iff teacher, 👨‍💼 iff administrator |
| `LoginModal.Submit` | src/components/LoginModal.tsx:23-46 | no record iff name or e-mail is empty; otherwise id from the clock, the role's key, the avatar, and name, e-mail, age, grade and school copied verbatim |
| `LoginModal.SubmitIgnoresPassword` | src/components/LoginModal.tsx:33-43 | the password has no effect on the submission |
| `LoginModal.Modal.constructor` | src/components/LoginModal.tsx:11-21 | sign-in mode, student, password hidden, all fields empty |
| `LoginModal.Modal.ChangeField` | src/components/LoginModal.tsx:106-199 | the form changes as `UpdateField` says |
| `LoginModal.Modal.SelectUserType` | src/components/LoginModal.tsx:78 | the role button's setter |
| `LoginModal.Modal.ToggleShowPassword` | src/components/LoginModal.tsx:146 | flips password visibility |
| `LoginModal.Modal.ToggleIsLogin` | src/components/LoginModal.tsx:218 | flips sign-in/sign-up and nothing else |
| `LoginModal.Modal.HandleSubmit` | src/components/LoginModal.tsx:23-46 | an invalid form raises one alert and logs nobody in; a valid one hands exactly one record to `onLogin` |
| `ProfileGrid.DefaultProfilesDistinct` | src/components/ProfileGrid.tsx:29-62 | the three defaults have distinct ids and names |
| `ProfileGrid.NewProfile` | src/components/ProfileGrid.tsx:69-78 | id from the clock, the typed name, 🎓, level 1, progress 0, streak 0, `Just created`, no subjects |
| `ProfileGrid.Grid.constructor` | src/components/ProfileGrid.tsx:21 | an empty list over the given storage |
| `ProfileGrid.Grid.Load` | src/components/ProfileGrid.tsx:23-64 | a saved list is shown as it is; otherwise the defaults are shown and saved; storage and screen agree |
| `ProfileGrid.Grid.AddNewProfile` | src/components/ProfileGrid.tsx:66-83 | a cancelled or empty name changes nothing; otherwise one new profile is appended and the list is written back |
| `LoadingScreen.TaskIndex` | src/components/LoadingScreen.tsx:20 | a valid index into the five tasks; the last iff the raised progress is at least 80; otherwise the 20-point band holding it |
| `LoadingScreen.Step` | src/components/LoadingScreen.tsx:18-22 | the stored progress never decreases, never exceeds 100, and rises by at least 5 unless capped |
| `LoadingScreen.ProgressAfterBounds` | src/components/LoadingScreen.tsx:17-24 | `k` ticks give at least `min(p + 5k, 100)` and at most 100 |
| `LoadingScreen.TwentyTicksFinish` | src/components/LoadingScreen.tsx:17-24 | twenty ticks from 0 always reach 100 |
| `LoadingScreen.Screen.constructor` | src/components/LoadingScreen.tsx:5-6 | progress 0, task `Initializing...` |
| `LoadingScreen.Screen.Tick` | src/components/LoadingScreen.tsx:18-23 | progress becomes `Step` of the old, never lower; the status line is picked from the uncapped value, `Almost ready...` from 80 on |
| `ThreeDVisualization.DrawingFor` | src/components/ThreeDVisualization.tsx:56-64 | the first of `fraction`, `geometric`, `molecular` the name contains picks the drawing, otherwise the default one |
| `ThreeDVisualization.ZoomIn` | src/components/ThreeDVisualization.tsx:286-287 | never above 2, never below the old zoom up to 2, and `+0.2` while at most 1.8 |
| `ThreeDVisualization.ZoomOut` | src/components/ThreeDVisualization.tsx:289-290 | never below 0.5, never above the old zoom from 0.5 on, and `-0.2` while at least 0.7 |
| `ThreeDVisualization.ZoomInThenOut` | src/components/ThreeDVisualization.tsx:286-290 | zooming in then out returns to the start while the cap is not hit |
| `ThreeDVisualization.ZoomOutThenIn` | src/components/ThreeDVisualization.tsx:286-290 | zooming out then in returns to the start while the floor is not hit |
| `ThreeDVisualization.Viewer.constructor` | src/components/ThreeDVisualization.tsx:16-19 | first model, rotating, zoom 1, rotation (0, 0, 0) |
| `ThreeDVisualization.Viewer.SelectModel` | src/components/ThreeDVisualization.tsx:306-308 | the `<select>` sets one of the listed models |
| `ThreeDVisualization.Viewer.Frame` | src/components/ThreeDVisualization.tsx:42-48 | while rotating the angles grow by (0.5, 1, 0.3), otherwise they stay |
| `ThreeDVisualization.Viewer.HandleInteraction` | src/components/ThreeDVisualization.tsx:279-298 | one notification with the selected model first; `rotate` toggles rotation only; zoom buttons clamp the zoom only; `reset` restores zoom 1, rotation 0 and rotating; unknown types change nothing; zoom stays in [0.5, 2] |
| `FloatingBooks.MultiplyIsLinear` | src/components/FloatingBooksBackground.tsx:232-238 | `multiplyMatrixVector` is linear and the identity fixes every vector |
| `FloatingBooks.MultiplyComposes` | src/components/FloatingBooksBackground.tsx:146-154 | rotating by X and then Y is multiplying by the product matrix |
| `FloatingBooks.RotationsKeepLength` | src/components/FloatingBooksBackground.tsx:121-131 | with `cos² + sin² = 1` both matrices keep every vector's length |
| `FloatingBooks.Wrap` | src/components/FloatingBooksBackground.tsx:84-89 | a wrapped coordinate lies in `[lo, hi]`; inside it is kept; below it jumps to `hi`; above to `lo` |
| `FloatingBooks.StepBook` | src/components/FloatingBooksBackground.tsx:74-89 | each coordinate is the wrap of position + velocity: `x` into [-100, W+100], `y` into [-100, H+100], `z` into [-150, 150], unchanged when in range; `rotZ` grows by 0.003; `rotX`, `rotY` by their time terms; velocity, colour, size and subject kept |
| `FloatingBooks.Book.constructor` | src/components/FloatingBooksBackground.tsx:3-18 | a book with the given field values |
| `FloatingBooks.Book.Tick` | src/components/FloatingBooksBackground.tsx:72-90 | the in-place tick leaves the book in state `StepBook` of the old |
| `FloatingBooks.TickAll` | src/components/FloatingBooksBackground.tsx:72-93 | every book of the frame ticks exactly once with its own time terms |
| `FloatingBooks.Opacity` | src/components/FloatingBooksBackground.tsx:110 | the scale clamped to [0.1, 0.8] |
| `FloatingBooks.ScaleOfWrappedBook` | src/components/FloatingBooksBackground.tsx:88-109 | for a ticked book the scale lies in [0.125, 0.875] |
| `FloatingBooks.Vertices` | src/components/FloatingBooksBackground.tsx:134-143 | eight corners at (±width/2, ±height/2, ±depth/2): corners 0-3 at `z = depth/2`, 4-7 at `-depth/2`; `x` negative at corners 0, 3, 4, 7; `y` negative at 0, 1, 4, 5 |
| `FloatingBooks.Transformed` | src/components/FloatingBooksBackground.tsx:146-154 | each corner is the product `RotY · RotX` applied to it |
| `FloatingBooks.Faces` | src/components/FloatingBooksBackground.tsx:157-164 | six faces of four valid corner indices each |
| `FloatingBooks.FaceDepths` | src/components/FloatingBooksBackground.tsx:167-170 | one entry per face, in face order, whose depth is the mean `z` of that face's four rotated corners |
| `FloatingBooks.DepthsIgnoreRotZ` | src/components/FloatingBooksBackground.tsx:145-154 | the roll angle `rotZ` (incremented at line 81) never reaches the drawing |
| `FloatingBooks.SwapDown` | src/components/FloatingBooksBackground.tsx:172 | one exchange of neighbours, a permutation |
| `FloatingBooks.InsertAt` | src/components/FloatingBooksBackground.tsx:172 | extends the sorted prefix by one, a permutation |
| `FloatingBooks.SortByDepth` | src/components/FloatingBooksBackground.tsx:172 | the faces end sorted by mean depth and are a permutation of the input |
| `FloatingBooks.RoleAt` | src/components/FloatingBooksBackground.tsx:176-178 | back iff position 0, spine iff 1 or 2, front iff 3 |
| `FloatingBooks.Paint` | src/components/FloatingBooksBackground.tsx:193-226 | the role of the position and its lightness (30% back, 45% spines, else unchanged), opacity times 0.6/0.8/1.0 or unchanged, glow iff front with opacity > 0.5, title iff front with scale > 0.6, font size the larger of 8 and `12 × scale` |
| `FloatingBooks.DrawBook` | src/components/FloatingBooksBackground.tsx:108-230 | six faces painted back to front by mean depth, a permutation of the face depths, each styled by its paint position |

## Left out

- Rendering: JSX, CSS classes, icons, animation delays, and canvas calls (`ctx.*`). Only the visibility conditions that the handlers depend on are modelled.
- `requestAnimationFrame`, `setInterval` and `setTimeout` become explicit calls (`Tick`, `Frame`, `TimerTick`, `DeliverReply`). There is no concurrency model; the random delay of a tutor reply is represented by letting any pending reply be delivered next.
- `Math.random()`, `Date.now()`, `new Date()`, `Math.sin`/`Math.cos` and the proxy's environment key are parameters. Numbers are `real`, not IEEE doubles: no rounding, `NaN` or `Infinity`, except where a `NaN` comparison or a division by zero decides a branch. Those cases are written out (`PacingDue`, `TickStep`, `PaceWidth`).
- `Text.ToLower` folds ASCII letters only, and `Text.IsBlank` knows only the ASCII whitespace plus NBSP and BOM. JavaScript's full Unicode case mapping and whitespace set are not modelled.
- `localStorage`, zustand `persist` and `JSON.parse`/`JSON.stringify`. The store is not persisted. The profile list in storage is a field holding the stored list, not its JSON text.
- Proxy I/O: `serve`, `req.json()`, `fetch`, `Deno.env.get` and logging. The parsed body, the key and the gateway's reply are inputs. A body whose `messages` is present but not an array, and an `includeWebSearch` that is not a boolean, are not modelled; JavaScript truthiness is a `bool`.
- The tutoring system prompt and the tutor chat's canned replies are kept as data (`AITutorProxy.SourcePrompt()`, `TutorChat.SourceWording()`), and the logic takes them as values. The texts appear in the model, but the proofs treat them as opaque parts.
- `AITutorProxy.SystemPromptWebSentence`: the "only if" half is stated through the prompt's length (with web search it is longer by exactly the sentence), not as "the prompt does not contain the sentence". The fixed text is not shown to lack the sentence.
- `TutorChat.GenerateTutorResponse`: the fixed texts of the `hint`, `solve`, `check` and `practice` replies are given by `ReplyContent` but not restated in the contract. Only the `explain` choice and the echo of unknown modes are stated as properties.
- `FloatingBooks.Paint`: the colour string edits (`replace('60%', …)`, `hsl` to `hsla`) are represented by the lightness a role asks for (`Lightness`), not by string surgery on the colour.
- `FloatingBooks.SortByDepth`: `Array.prototype.sort` is stable; the insertion sort is stable too, but stability is not stated.
- The random initial placement of the books, the canvas resize handler and the book palette are not modelled; `Book.constructor` takes any state.
- `LessonPlayer.Player.constructor` requires a lesson with content. With none, `currentContent` is `undefined` and the first render throws at `currentContent.type` (src/components/LessonPlayer.tsx:79) before any effect runs, so the requirement only excludes an input on which the component crashes. Every default lesson has content.
- `ThreeDVisualization.Viewer.constructor` requires a nonempty model list. With none, the source's `selectedModel` is `undefined`, and the first render throws at `selectedModel.replace` (src/components/ThreeDVisualization.tsx:385) before any effect runs.
- `AIAnalysisPanel`: as written the panel cannot render. It takes `aiAnalysisHistory` and `userPerformance` from the store (src/components/AIAnalysisPanel.tsx:21), but the store state (src/store/lessonStore.ts:19-26) has neither, so indexing `aiAnalysisHistory` at line 22 throws a `TypeError` on every render. It also calls `lesson.learningObjectives.slice` (line 164), a field the store's `Lesson` (src/store/lessonStore.ts:4-16) lacks. The per-step `duration` and `difficulty` (lines 44 and 54) are not fields of a store content item either; for a store lesson they are `undefined`, so neither tip can fire. The model describes the panel given a store and a lesson that supply these values, taken as parameters; `userPerformance` is read but never used.
- `LabExperiment.Lab.CompleteExperiment` keeps the observations captured when the running interval was set up, as the source does: text typed while the experiment runs is not in the record.
- The HTML `required` attributes of the login form and the pass-through `onClose` callbacks are not modelled.
- The voice-input toggle of the tutor chat and its scroll effect are presentation; they are not part of this model.

## Findings

| source | as written | input that shows it | evidently intended | confidence | as-written member | corrected member |
|---|---|---|---|---|---|---|
| src/components/MCQTest.tsx:68-82 | the countdown interval is created on mount (dependencies `[testCompleted]`), so on timeout it calls the mount-time `handleFinishTest`, whose `answers` is the initial all-`null` array: a timed-out test always scores 0 | answer all five sample questions correctly and let the ten minutes run out: score 0, while "Finish Test" scores 5 | a timeout scores the answers given so far | high, from reading the closure capture; not executed | `MCQTest.Test.TimerTickAsWritten`, `MCQTest.TimeoutIgnoresAnswers` | `MCQTest.Test.TimerTick` |
