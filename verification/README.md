# NotGuitarSchool in Dafny

A Dafny model of the logic at the core of NotGuitarSchool, an iOS guitar-learning
app, together with proofs about it. It covers:

- the **tuner pipeline**:
  - autocorrelation pitch detection (`PitchDetector`);
  - a median-smoothing buffer that resets on jumps;
  - nearest-string matching against eight guitar tunings (`GuitarTuningsCatalog`);
  - the in-tune edge detector that triggers haptic feedback (`TunaViewModel`);
  - how the tuner screen shows each update (`TunaViewController`);
- the **learning module**:
  - completion bookkeeping in both `LearningViewModel` copies, with their mock catalogues;
  - the quiz session (`QuizViewModel`);
  - grading of a finished quiz (`QuizResultView`);
  - the chord chart and its filter (`ChordsView`);
- the **metronome** controls (`MetronomeView`);
- the **time-of-day greeting** (`GreetingView`).

Each Swift component becomes one module of pure functions. A mutating method becomes
a function from the old state to the new state. It also returns the delegate calls
the method makes, in order, as a list of events. Swift's `Float`/`Double` values are
`real`. Swift's `Int` conversions and divisions are written out: `Int(x)` rounds
toward zero, and so does `/` on integers.

| file | module | models |
|---|---|---|
| wrappers.dfy | `Wrappers` | optionals; `min`, `max`, `abs`; `Int(x)` |
| text.dfy | `Text` | integer interpolation, `"a/b"` texts and their parser, `lowercased()`, `contains` |
| tunings.dfy | `Tunings` | the tuning catalog |
| pitch_detection.dfy | `PitchDetection` | `PitchDetector` |
| smoothing.dfy | `Smoothing` | `addToBuffer`, `smoothedFrequency` |
| matching.dfy | `Matching` | the nearest-string search of `update(with:)` |
| tuner.dfy | `Tuner` | `TunaViewModel` as a state machine |
| tuner_screen.dfy | `TunerScreen` | the delegate side of `TunaViewController` |
| learning.dfy | `Learning` | `LearningViewModel` operations and types |
| learning_data.dfy | `LearningData` | both mock catalogues |
| quiz_session.dfy | `QuizSession` | `QuizViewModel` |
| quiz_result.dfy | `QuizResult` | `QuizResultView.showResult` |
| chords.dfy | `Chords` | `ChordsView` |
| metronome.dfy | `Metronome` | `MetronomeView` |
| greeting.dfy | `Greeting` | `GreetingView.makeGreetingText` |

## Model

| member | source | states |
|---|---|---|
| Wrappers.Trunc | NotGuitarSchool/Tuna/Services/PitchDetector.swift:30-31 | `Int(x)` rounds toward zero: for x ≥ 0 the largest integer not above x, for x < 0 the smallest not below it |
| Text.FractionText | NotGuitarSchool/Learning/Views/QuizResultView.swift:196 | the text "a/b" parses back to exactly the pair (a, b), for any integers including negative ones |
| Text.IntToStringRoundTrip | NotGuitarSchool/Learning/Views/QuizResultView.swift:196-197 | the decimal text of an integer reads back as that integer |
| Text.Contains | NotGuitarSchool/Modules/Main/Learning/Views/ChordsView.swift:243 | true exactly when the needle occurs at some position of the text |
| Text.LowerIdempotent | NotGuitarSchool/Modules/Main/Learning/Views/ChordsView.swift:240-243 | lowercasing an already lowercased text changes nothing |
| Tunings.FactorsOrdered | NotGuitarSchool/Tuna/Models/GuitarTuning.swift:31-50 | the three detuning factors satisfy 0 < 2^(-4/12) < 2^(-2/12) < 2^(-1/12) < 1 |
| Tunings.Shifted | NotGuitarSchool/Tuna/Models/GuitarTuning.swift:31-45 | a derived tuning has as many strings as its base; string i takes the i-th new name and the base frequency times the factor |
| Tunings.ShiftedPreservesOrder | NotGuitarSchool/Tuna/Models/GuitarTuning.swift:31-45 | scaling a positive, strictly rising tuning by a positive factor keeps it positive and strictly rising |
| Tunings.ShiftedLowersEveryString | NotGuitarSchool/Tuna/Models/GuitarTuning.swift:31-45 | a factor below one lowers every string of the tuning |
| Tunings.DropCStrings | NotGuitarSchool/Tuna/Models/GuitarTuning.swift:47-60 | Drop C has six strings: "C2" at the base's lowest frequency times the low factor, then G2, C3, F3, A3, D4 at the base's upper five frequencies times the other factor |
| Tunings.DropCPreservesOrder | NotGuitarSchool/Tuna/Models/GuitarTuning.swift:47-60 | lowering the bottom string by more than the rest keeps Drop C positive and strictly rising |
| Tunings.DropCLowStringLowest | NotGuitarSchool/Tuna/Models/GuitarTuning.swift:52-57 | the lowered C2 string stays below every other string of Drop C |
| Tunings.LiteralTuningsWellFormed | NotGuitarSchool/Tuna/Models/GuitarTuning.swift:16-29 | standard, Drop D, Open G, Open D and Open E each have six positive, strictly rising strings |
| Tunings.DerivedTuningsWellFormed | NotGuitarSchool/Tuna/Models/GuitarTuning.swift:31-60 | the half-step-down, whole-step-down and Drop C tunings each have six positive, strictly rising strings |
| Tunings.CatalogWellFormed | NotGuitarSchool/Tuna/Models/GuitarTuning.swift:72-74 | the catalog holds eight tunings; each has six positive, strictly rising strings (none is empty) |
| Tunings.CatalogNames | NotGuitarSchool/Tuna/Models/GuitarTuning.swift:16-74 | the catalog lists the eight tunings by name in the declared order |
| PitchDetection.UpdateSampleRate | NotGuitarSchool/Tuna/Services/PitchDetector.swift:15-17 | the detector takes the new sample rate |
| PitchDetection.MinLag | NotGuitarSchool/Tuna/Services/PitchDetector.swift:30 | the shortest lag is max(1, ⌊rate/1000⌋): at least 1, exactly 1 below 2000 Hz, and otherwise the whole part of rate/1000 |
| PitchDetection.MaxLag | NotGuitarSchool/Tuna/Services/PitchDetector.swift:31 | the longest lag is min(⌊rate/60⌋, N − 1): never above rate/60 or the last frame index, and equal to ⌊rate/60⌋ unless the frame cap applies |
| PitchDetection.Scan | NotGuitarSchool/Tuna/Services/PitchDetector.swift:34-41 | the lag search keeps the earliest lag with the largest positive autocorrelation, or lag 0 and maximum 0 when no autocorrelation is positive |
| PitchDetection.Detect | NotGuitarSchool/Tuna/Services/PitchDetector.swift:20-46 | frames under 1024 samples, and empty lag windows, give no pitch; a pitch lies in [60, 1300] Hz and is the sample rate over the best lag, whose autocorrelation exceeds 0.01 |
| PitchDetection.DetectComplete | NotGuitarSchool/Tuna/Services/PitchDetector.swift:32-45 | conversely, a long frame whose best lag is confident and whose frequency lies in range is reported with that frequency |
| PitchDetection.BestLagUnique | NotGuitarSchool/Tuna/Services/PitchDetector.swift:37-40 | the first strict maximum is unique, so the reported lag is well defined |
| PitchDetection.SilenceHasNoPitch | NotGuitarSchool/Tuna/Services/PitchDetector.swift:42 | a frame of zeros never yields a pitch |
| PitchDetection.SumProducts | NotGuitarSchool/Tuna/Services/PitchDetector.swift:35-36 | the inner loop computes the autocorrelation at the lag |
| PitchDetection.SearchBestLag | NotGuitarSchool/Tuna/Services/PitchDetector.swift:25-41 | the outer loop finds the same best lag and maximum as the reference scan |
| PitchDetection.DetectFrequency | NotGuitarSchool/Tuna/Services/PitchDetector.swift:20-46 | the imperative detector returns exactly the reference result, always within [60, 1300] Hz |
| Smoothing.AddToBuffer | NotGuitarSchool/Tuna/ViewModels/TunaViewModel.swift:78-84 | the new pitch is last; a jump of more than 30 Hz from the previous one restarts the buffer with it alone; otherwise it is appended and the oldest dropped beyond 7 entries |
| Smoothing.AddPreservesValid | NotGuitarSchool/Tuna/ViewModels/TunaViewModel.swift:78-84 | the buffer stays at most 7 long, with no step larger than 30 Hz between neighbours |
| Smoothing.Sort | NotGuitarSchool/Tuna/ViewModels/TunaViewModel.swift:88 | sorting yields an ascending permutation of the buffer |
| Smoothing.SmoothedFrequency | NotGuitarSchool/Tuna/ViewModels/TunaViewModel.swift:86-90 | absent exactly for an empty buffer; otherwise an element of the buffer with at most n/2 values below it and more than n/2 at or below it (the upper median) |
| Smoothing.MedianUnique | NotGuitarSchool/Tuna/ViewModels/TunaViewModel.swift:86-90 | any value with that rank property is the one returned |
| Smoothing.SortedRank | NotGuitarSchool/Tuna/ViewModels/TunaViewModel.swift:88-89 | in a sorted list, index k has at most k values strictly below and more than k at or below it |
| Smoothing.AppendWithRoom | NotGuitarSchool/Tuna/ViewModels/TunaViewModel.swift:79-83 | without a jump and with fewer than 7 entries, the pitch is simply appended |
| Smoothing.JumpExample | NotGuitarSchool/Tuna/ViewModels/TunaViewModel.swift:79-80 | 100 then 140 Hz leaves only 140 |
| Smoothing.SteadyExample | NotGuitarSchool/Tuna/ViewModels/TunaViewModel.swift:81-83 | 100, 101, 99, 102 are all kept, in arrival order |
| Smoothing.MedianExample | NotGuitarSchool/Tuna/ViewModels/TunaViewModel.swift:86-90 | the smoothed value of 100, 101, 99, 102 is 101 |
| Matching.ClosestIndex | NotGuitarSchool/Tuna/ViewModels/TunaViewModel.swift:99 | absent only for no strings; otherwise the first string at minimal distance |
| Matching.ClosestIndexUnique | NotGuitarSchool/Tuna/ViewModels/TunaViewModel.swift:99 | any string at minimal distance with no earlier one at equal distance is the one chosen |
| Matching.MatchFrequency | NotGuitarSchool/Tuna/ViewModels/TunaViewModel.swift:98-101 | the match names the closest string; deviation is frequency minus target; ratio times target is the frequency |
| Matching.StandardA2Example | NotGuitarSchool/Tuna/ViewModels/TunaViewModel.swift:98-100 | 112 Hz in standard tuning is A2, 2 Hz sharp |
| Tuner.Initial | NotGuitarSchool/Tuna/ViewModels/TunaViewModel.swift:20-29 | a fresh session has the eight-tuning catalog, the first tuning selected, an empty buffer, not in tune; it is valid |
| Tuner.AudioStarted | NotGuitarSchool/Tuna/ViewModels/TunaViewModel.swift:60-62 | audio start-up changes only the detector's sample rate |
| Tuner.SelectTuning | NotGuitarSchool/Tuna/ViewModels/TunaViewModel.swift:25-49 | a valid index is stored, empties the buffer and announces that tuning's name, even when already selected; an invalid index changes nothing and announces nothing; validity is kept |
| Tuner.SelectOutOfRangeIsNoOp | NotGuitarSchool/Tuna/ViewModels/TunaViewModel.swift:46 | index -1 and index = count are both ignored |
| Tuner.InTuneEdge | NotGuitarSchool/Tuna/ViewModels/TunaViewModel.swift:105-110 | feedback fires exactly when in tune now (below 1 Hz) but not before; the flag becomes the current in-tune level |
| Tuner.Update | NotGuitarSchool/Tuna/ViewModels/TunaViewModel.swift:92-111 | no frequency clears the flag and reports all-absent; otherwise the report names the closest string, its deviation and the ratio to its target (the source's cents input); feedback follows iff this update enters tune; only the flag changes |
| Tuner.OnFrame | NotGuitarSchool/Tuna/ViewModels/TunaViewModel.swift:65-74 | a frame without pitch reports no signal; a pitch goes into the buffer and the update reports the buffer's median, one of its values, with the closest string of the selected tuning, the offset from it and the ratio to it; feedback follows iff this frame enters tune |
| Tuner.FeedbackOnRisingEdges | NotGuitarSchool/Tuna/ViewModels/TunaViewModel.swift:105-110 | over any sequence of updates, feedback fires at exactly the rising edges of the in-tune level, in order; the flag ends at the last level |
| Tuner.FeedbackExample | NotGuitarSchool/Tuna/ViewModels/TunaViewModel.swift:105-110 | deviations 5, 0.5, 0.3, 5, 0.4 trigger feedback at updates 1 and 4 only |
| TunerScreen.Classify | NotGuitarSchool/Modules/Main/Tuna/TunaViewController.swift:162-174 | in tune (green) iff \|d\| < 1; otherwise loosen when sharp, tighten when flat; orange below 2.5 Hz and red from there |
| TunerScreen.InTuneAgreesWithFeedback | NotGuitarSchool/Modules/Main/Tuna/TunaViewController.swift:165 | the screen says "in tune" for exactly the deviations that trigger the session's haptic feedback |
| TunerScreen.Initial | NotGuitarSchool/Modules/Main/Tuna/TunaViewController.swift:42-54 | the screen starts with the "---", "-- Hz" and "±0 c" placeholders and the selected tuning's name |
| TunerScreen.DidUpdate | NotGuitarSchool/Modules/Main/Tuna/TunaViewController.swift:154-180 | each absent value shows its placeholder; a present one its formatted value; the needle follows the deviation, or centres without one, with the advice derived from it |
| TunerScreen.DidChangeTuning | NotGuitarSchool/Modules/Main/Tuna/TunaViewController.swift:182-188 | a tuning change shows the new name and resets the four labels, leaving needle and advice colour as they were |
| TunerScreen.NoSignalShowsPlaceholders | NotGuitarSchool/Modules/Main/Tuna/TunaViewController.swift:155-179 | a no-signal update returns every label to its placeholder, whatever was shown before |
| TunerScreen.MicPermissionDenied | NotGuitarSchool/Modules/Main/Tuna/TunaViewController.swift:194-197 | a denied microphone shows its message in the note label and clears the advice, nothing else |
| TunerScreen.AudioError | NotGuitarSchool/Modules/Main/Tuna/TunaViewController.swift:199-201 | an audio error shows its message in the note label, nothing else |
| TunerScreen.TuningChangeClearsFailure | NotGuitarSchool/Modules/Main/Tuna/TunaViewController.swift:182-201 | a tuning change replaces a permission or audio failure message with the note placeholder |
| Learning.FirstIndex | NotGuitarSchool/Modules/Main/Learning/LearningViewModel.swift:80 | the first position whose element passes the test, or absent exactly when none does |
| Learning.Initial | NotGuitarSchool/Modules/Main/Learning/LearningViewModel.swift:49-57 | the view-model starts with the given lists and the first segment |
| Learning.SelectSegment | NotGuitarSchool/Modules/Main/Learning/LearningViewModel.swift:61-63 | any index is stored unchecked; the lists are untouched |
| Learning.LoadMaterials | NotGuitarSchool/Modules/Main/Learning/LearningViewModel.swift:65-68 | the only effect is one "materials updated" notification |
| Learning.LoadQuizzes | NotGuitarSchool/Modules/Main/Learning/LearningViewModel.swift:70-73 | the only effect is one "quizzes updated" notification |
| Learning.StartQuiz | NotGuitarSchool/Modules/Main/Learning/LearningViewModel.swift:75-77 | the only effect is a request to present that quiz |
| Learning.MarkMaterialAsCompleted | NotGuitarSchool/Modules/Main/Learning/LearningViewModel.swift:79-93 | an unknown id changes nothing and notifies nobody; otherwise only the first material with that id becomes completed, with one notification |
| Learning.MarkQuizAsCompleted | NotGuitarSchool/Modules/Main/Learning/LearningViewModel.swift:95-108 | the same for quizzes; the questions are kept |
| Learning.FirstIndexCongruent | NotGuitarSchool/Modules/Main/Learning/LearningViewModel.swift:79-108 | lists that pass the test at the same positions have the same first match |
| Learning.MarkMaterialKeepsIds | NotGuitarSchool/Modules/Main/Learning/LearningViewModel.swift:82-90 | marking keeps every id in place, so every id is found where it was |
| Learning.MarkQuizKeepsIds | NotGuitarSchool/Modules/Main/Learning/LearningViewModel.swift:98-105 | likewise for quizzes |
| Learning.MarkMaterialIdempotent | NotGuitarSchool/Modules/Main/Learning/LearningViewModel.swift:79-93 | marking a material twice leaves the same state as once |
| Learning.MarkQuizIdempotent | NotGuitarSchool/Modules/Main/Learning/LearningViewModel.swift:95-108 | marking a quiz twice leaves the same state as once |
| LearningData.MainIds | NotGuitarSchool/Modules/Main/Learning/LearningViewModel.swift:112-303 | the main catalogue's materials are "1"–"5" and its quizzes "1"–"4", all distinct |
| LearningData.MainFlags | NotGuitarSchool/Modules/Main/Learning/LearningViewModel.swift:114-302 | only lesson 2 and quiz 2 start completed; the quizzes have 4, 3, 3 and 2 questions; every lesson has an image |
| LearningData.MainAnswersValid | NotGuitarSchool/Modules/Main/Learning/LearningViewModel.swift:198-303 | every main-catalogue question's correct answer is one of its options |
| LearningData.LegacyDataWellFormed | NotGuitarSchool/Learning/LearningViewModel.swift:112-178 | the legacy catalogue has materials "1"–"3" and quizzes "1"–"2", distinct ids, valid answers, lesson 2 and quiz 2 completed, 2 and 1 questions |
| LearningData.MarkSetsOneFlag | NotGuitarSchool/Modules/Main/Learning/LearningViewModel.swift:79-93 | marking a known material sets exactly its completion flag |
| LearningData.MarkLegacyMaterialExample | NotGuitarSchool/Learning/LearningViewModel.swift:79-93 | completing legacy lesson 3 gives completion flags false, true, true |
| LearningData.MarkMainUnknownMaterial | NotGuitarSchool/Modules/Main/Learning/LearningViewModel.swift:79-80 | an id absent from the main catalogue changes nothing and notifies nobody |
| LearningData.MarkLegacyQuizExample | NotGuitarSchool/Learning/LearningViewModel.swift:95-108 | completing legacy quiz 1 leaves both quizzes completed |
| QuizSession.Initial | NotGuitarSchool/Learning/QuizViewModel.swift:54-56 | a new session is at question 0 with no answers, score 0, not completed |
| QuizSession.CurrentQuestion | NotGuitarSchool/Learning/QuizViewModel.swift:31-34 | the question at the index, present exactly while the index is inside the quiz |
| QuizSession.Progress | NotGuitarSchool/Learning/QuizViewModel.swift:36-38 | the progress times the question count is the index; below 1 while a question is shown; no value for an empty quiz |
| QuizSession.NextButtonTitle | NotGuitarSchool/Learning/QuizViewModel.swift:40-50 | "Завершить тест" exactly on the last question, "Следующий вопрос" otherwise |
| QuizSession.ShowCurrentQuestion | NotGuitarSchool/Learning/QuizViewModel.swift:95-106 | past the end nothing is sent; otherwise the question, the progress and a disabled next button, in that order |
| QuizSession.StartQuiz | NotGuitarSchool/Learning/QuizViewModel.swift:60-66 | everything resets; a non-empty quiz then shows its first question, progress 0 and a disabled next button, an empty one shows nothing |
| QuizSession.RetryQuiz | NotGuitarSchool/Learning/QuizViewModel.swift:89-91 | retrying is starting over: no answers, score 0, not completed, progress back to 0 and the next button disabled |
| QuizSession.SelectAnswer | NotGuitarSchool/Learning/QuizViewModel.swift:68-78 | the choice is appended when the current slot does not exist yet, else overwrites only that slot; the next button is enabled |
| QuizSession.CountCorrect | NotGuitarSchool/Learning/QuizViewModel.swift:110-115 | counting over the first n questions never exceeds n |
| QuizSession.CountCorrectIsCardinality | NotGuitarSchool/Learning/QuizViewModel.swift:110-115 | the count equals the number of positions answered with the correct option |
| QuizSession.FullScoreIffAllCorrect | NotGuitarSchool/Learning/QuizViewModel.swift:110-115 | full marks exactly when every question is answered correctly |
| QuizSession.ExtraAnswersIgnored | NotGuitarSchool/Learning/QuizViewModel.swift:111-112 | answers beyond the last question never count |
| QuizSession.CompleteQuiz | NotGuitarSchool/Learning/QuizViewModel.swift:108-119 | the score is recounted from the answers, between 0 and the question count; the quiz becomes completed and the result is announced |
| QuizSession.CountScore | NotGuitarSchool/Learning/QuizViewModel.swift:110-115 | the counting loop yields the number of correctly answered questions |
| QuizSession.NextQuestion | NotGuitarSchool/Learning/QuizViewModel.swift:80-87 | on the last question the quiz completes; otherwise the index advances and the next question is shown |
| QuizSession.StepsPreserveValid | NotGuitarSchool/Learning/QuizViewModel.swift:60-87 | start, select and next keep the index inside a non-empty quiz and at most one answer beyond it |
| QuizSession.EmptyQuizNeverCompletes | NotGuitarSchool/Learning/QuizViewModel.swift:80-87 | in a quiz without questions "next" only moves the index on and shows nothing |
| QuizSession.CompletionIsStable | NotGuitarSchool/Learning/QuizViewModel.swift:80-119 | pressing finish again gives the same state and the same announcement |
| QuizSession.PlayWholeQuiz | NotGuitarSchool/Learning/QuizViewModel.swift:60-119 | answering each question in turn from a fresh start ends completed with those answers, scored as the number answered correctly |
| QuizSession.SkippedAnswerShifts | NotGuitarSchool/Learning/QuizViewModel.swift:70-71 | a choice made after skipping a question is appended, so it lands in the skipped question's slot |
| QuizResult.TruncDiv | NotGuitarSchool/Learning/Views/QuizResultView.swift:175 | integer division rounds toward zero for every sign: the quotient's magnitude is the floor of \|a\|/\|b\| and its sign is that of a·b; for non-negative over positive it is the floor |
| QuizResult.TruncDivSymmetric | NotGuitarSchool/Learning/Views/QuizResultView.swift:175 | negating either operand negates the quotient, unlike floor division |
| QuizResult.Percentage | NotGuitarSchool/Learning/Views/QuizResultView.swift:175 | the percentage is the floor of score·100/total, between 0 and 100 when the score is at most the total |
| QuizResult.GradeOf | NotGuitarSchool/Learning/Views/QuizResultView.swift:178-193 | the three grades split the percentages at 80 and 60 |
| QuizResult.ShowResult | NotGuitarSchool/Learning/Views/QuizResultView.swift:174-197 | each grade gets its icon, tint, title and title colour; the score text reads back as (score, total) |
| QuizResult.GradeByRatio | NotGuitarSchool/Learning/Views/QuizResultView.swift:175-193 | "excellent" iff 5·score ≥ 4·total, "try again" iff 5·score < 3·total, with no division |
| QuizResult.FloorThreshold | NotGuitarSchool/Learning/Views/QuizResultView.swift:175-183 | the floored quotient reaches a threshold k exactly when the dividend reaches k times the divisor |
| QuizResult.GradeMonotone | NotGuitarSchool/Learning/Views/QuizResultView.swift:178-193 | more correct answers out of the same total never earn a lower grade |
| QuizResult.GradeExamples | NotGuitarSchool/Learning/Views/QuizResultView.swift:175-193 | 4/5 is 80 % and excellent; 2/3 truncates to 66 % and is good; 1/2 asks to retry |
| Chords.Filter | NotGuitarSchool/Modules/Main/Learning/Views/ChordsView.swift:239-269 | a chord is listed iff it passes search, category and difficulty; the list is no longer than the catalogue |
| Chords.FilterAppend | NotGuitarSchool/Modules/Main/Learning/Views/ChordsView.swift:242 | filtering distributes over concatenation, so catalogue order is kept |
| Chords.FilterIdempotent | NotGuitarSchool/Modules/Main/Learning/Views/ChordsView.swift:239-269 | re-filtering with the same controls changes nothing |
| Chords.FilterKeepsAllMatching | NotGuitarSchool/Modules/Main/Learning/Views/ChordsView.swift:242-265 | when every chord passes, the list is shown whole |
| Chords.FilterDropsAllFailing | NotGuitarSchool/Modules/Main/Learning/Views/ChordsView.swift:242-265 | when no chord passes, nothing is shown |
| Chords.FilterCongruent | NotGuitarSchool/Modules/Main/Learning/Views/ChordsView.swift:242-265 | control settings that accept the same chords give the same list |
| Chords.NoFiltersShowsAll | NotGuitarSchool/Modules/Main/Learning/Views/ChordsView.swift:240-265 | no search (or an empty one) with both controls on "all" shows every chord |
| Chords.SearchIgnoresCase | NotGuitarSchool/Modules/Main/Learning/Views/ChordsView.swift:240-243 | upper- and lower-case searches give the same list |
| Chords.SuspendedOnlyUnderAll | NotGuitarSchool/Modules/Main/Learning/Views/ChordsView.swift:246-253 | no category segment shows a suspended chord |
| Chords.CategoryOnly | NotGuitarSchool/Modules/Main/Learning/Views/ChordsView.swift:243-265 | without a search and with every difficulty, the category alone decides |
| Chords.CatalogWellFormed | NotGuitarSchool/Modules/Main/Learning/Views/ChordsView.swift:199-233 | 25 chords, each fingering six entries from -1 (muted) to 5 |
| Chords.CatalogNamesDistinct | NotGuitarSchool/Modules/Main/Learning/Views/ChordsView.swift:199-233 | no two chords share a name |
| Chords.MajorSegmentExample | NotGuitarSchool/Modules/Main/Learning/Views/ChordsView.swift:202-208 | the "major" segment lists C, D, E, F, G, A, B in that order |
| Chords.MajorSegmentOf | NotGuitarSchool/Modules/Main/Learning/Views/ChordsView.swift:242-253 | a 25-chord list whose first seven chords are the only majors filters to those seven |
| Chords.FretLabelOf | NotGuitarSchool/Modules/Main/Learning/Views/ChordsView.swift:465-475 | -1 shows as muted, 0 as open, any other value as its fret number |
| Metronome.DisplayString | NotGuitarSchool/Modules/Main/Tuna/Views/MetronomeView.swift:21-23 | "beats/noteValue" parses back to the same pair |
| Metronome.PlayButton | NotGuitarSchool/Modules/Main/Tuna/Views/MetronomeView.swift:46-52 | the pause title and red colour exactly while playing |
| Metronome.InitialLabels | NotGuitarSchool/Modules/Main/Tuna/Views/MetronomeView.swift:68-78 | the labels the view is built with ("120 BPM", "4/4", play) agree with its initial state |
| Metronome.InitialConsistent | NotGuitarSchool/Modules/Main/Tuna/Views/MetronomeView.swift:32-46 | the initial tempo, slider and selected segment agree |
| Metronome.SetTempo | NotGuitarSchool/Modules/Main/Tuna/Views/MetronomeView.swift:258-261 | the tempo is clamped into 60…200 (in range kept, below → 60, above → 200), the slider follows, one announcement |
| Metronome.SetTempoIdempotent | NotGuitarSchool/Modules/Main/Tuna/Views/MetronomeView.swift:258-261 | setting the same tempo twice leaves the same state, and announces again |
| Metronome.TempoSliderChanged | NotGuitarSchool/Modules/Main/Tuna/Views/MetronomeView.swift:231-233 | the tempo becomes the slider position rounded down, within 60…200, with one announcement |
| Metronome.TimeSignatureSelected | NotGuitarSchool/Modules/Main/Tuna/Views/MetronomeView.swift:235-246 | segments 0–2 select 4/4, 3/4, 2/4 and announce it; an index past the table changes only the control; a negative index traps |
| Metronome.SegmentOf | NotGuitarSchool/Modules/Main/Tuna/Views/MetronomeView.swift:272-273 | a signature has a segment exactly when it is in the table, and that segment shows it |
| Metronome.SetTimeSignature | NotGuitarSchool/Modules/Main/Tuna/Views/MetronomeView.swift:263-276 | any signature is stored and announced; the control moves to it only when it is listed |
| Metronome.SetMatchesTap | NotGuitarSchool/Modules/Main/Tuna/Views/MetronomeView.swift:235-276 | setting a listed signature from code equals tapping its segment |
| Metronome.UnlistedSignatureDesyncsControl | NotGuitarSchool/Modules/Main/Tuna/Views/MetronomeView.swift:263-276 | setting 6/8 shows "6/8" while the control still selects 4/4 |
| Metronome.PlayButtonTapped | NotGuitarSchool/Modules/Main/Tuna/Views/MetronomeView.swift:248-254 | a tap flips playback and announces the new state, nothing else |
| Metronome.SetPlaying | NotGuitarSchool/Modules/Main/Tuna/Views/MetronomeView.swift:278-280 | the value is stored and announced even when unchanged |
| Metronome.DoubleTapRestores | NotGuitarSchool/Modules/Main/Tuna/Views/MetronomeView.swift:248-254 | two taps restore the state and announce both flips |
| Metronome.TapIsSetOpposite | NotGuitarSchool/Modules/Main/Tuna/Views/MetronomeView.swift:248-280 | a tap is `setPlaying` with the opposite value |
| Metronome.ActionsPreserveConsistent | NotGuitarSchool/Modules/Main/Tuna/Views/MetronomeView.swift:231-280 | every control action keeps tempo, slider and selected segment consistent, as long as signatures come from the table |
| Greeting.GreetingAsWritten | NotGuitarSchool/DesignSystem/UIComponents/GreetingView.swift:60-74 | morning 5–11, afternoon 12–16, evening 17–22; every other hour reaches the reversed range and traps |
| Greeting.NightHoursTrap | NotGuitarSchool/DesignSystem/UIComponents/GreetingView.swift:69-70 | at 23:00 and 0–4 the switch traps; no hour of the day gets the night greeting |
| Greeting.CorrectedGreeting | NotGuitarSchool/DesignSystem/UIComponents/GreetingView.swift:60-74 | with night as 23:00–04:59, each greeting holds exactly on its hours; the default only outside 0–23 |
| Greeting.CorrectionAgreesWhereDefined | NotGuitarSchool/DesignSystem/UIComponents/GreetingView.swift:62-72 | the corrected greeting equals the original wherever the original does not trap |
| Greeting.EveryHourGreeted | NotGuitarSchool/DesignSystem/UIComponents/GreetingView.swift:62-72 | every hour of a day gets a time-of-day greeting; night is shown exactly at the hours the original traps on |

## Left out

- Audio capture is left out: `AVAudioSession`, `AVAudioEngine`, the input tap, `requestPermissionAndStart` and `stop`. A frame of samples and the input's sample rate are parameters instead. The error texts of `startAudio` reach the model only as messages passed to `TunerScreen.AudioError`.
- Main-queue dispatch and threading are left out. Each delegate call is an event, in the order the source makes them.
- Floating point is modelled as exact reals: `Float`/`Double` rounding, NaN and infinities are out of scope. So is the trap of `Int(x)` on non-finite values.
- The `pow(2, -k/12)` factors are decimal constants. The proofs use only their order: 0 < 2^(-4/12) < 2^(-2/12) < 2^(-1/12) < 1.
- `Tuner.Update`: the cents value is `1200 · log2(frequency / target)`. The update event carries the ratio `frequency / target` instead, because logarithms are out of scope. The cents label takes the cents value as an input.
- Label formatting (`String(format:)`, `%.2f`, `%+0.0f`) keeps the format string and the value without rendering them.
- Fonts, colours beyond the named ones, layout, animation, haptics, `TunerNeedleView` drawing and navigation are out of scope.
- `Text.LowerChar`: `lowercased()` is modelled for ASCII and the basic Cyrillic alphabet only. Those are the alphabets the app's texts use. `contains` compares characters one by one, with no Unicode canonical equivalence.
- `Tuner.Update` and `Tuner.OnFrame` require a valid state: the selected index is in range, and each tuning has at least one string with positive frequencies. The source would trap on an out-of-range subscript or on the `!` of an empty `min`. Positive frequencies have no trap behind them: with a zero target, Swift's `Float` division and `log2` would give an infinity or NaN. The model needs them for exact real division. The fixed catalog always meets this condition. The catalog lemmas show the start state is valid, and every operation keeps it so.
- `QuizResult.Percentage`: `score * 100` does not model 64-bit overflow. It requires a non-zero total, since the source traps on division by zero. A quiz without questions never completes, so it never reaches the result screen.
- `Metronome.TempoSliderChanged` takes the slider's value as a number within [60, 200]. `UISlider` keeps its value within its minimum and maximum.
- `Greeting`: the calendar lookup of the hour is a parameter.
- Selecting a chord and presenting quizzes or materials are left out. They only hand values to other screens.
- `PitchDetection.MinLag` and `PitchDetection.MaxLag`: `PitchDetector.swift:30-31` computes both bounds with `Int(...)`, which truncates toward zero; the model does the same (`Wrappers.Trunc`).

## Findings

| source | as written | input that shows it | evidently intended | confidence | as-written member | corrected member |
|---|---|---|---|---|---|---|
| NotGuitarSchool/DesignSystem/UIComponents/GreetingView.swift:69 | the night case is the range `23..<6`; forming a range whose lower bound exceeds its upper bound fails Swift's precondition, so the switch traps instead of greeting | hour 23 (also 0–4): the first three cases do not match, so the fourth range is built and traps | night from 23:00 to 04:59 shows "Доброй ночи!" | medium, not executed | Greeting.GreetingAsWritten (shown by Greeting.NightHoursTrap) | Greeting.CorrectedGreeting (with Greeting.EveryHourGreeted) |
