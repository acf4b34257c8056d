# ABMI interview coach — a Dafny model

ABMI is an AI interview-coaching web application. It has a React client, a small Express server and
Supabase edge functions. A candidate records an answer with camera and microphone. Posture, eye
contact, emotion and voice figures are derived and graded. The client generates interview
questions, keeps recordings and custom practice modes, and shows dashboards and reports. The
server parses resumes, stores uploads and sends one-time passwords by e-mail.

The model has one Dafny module per core source file, named after it:

- `AnalysisHook`, `AnalysisLib`, `AnalysisService` and `Api` model the client's analysis code.
- `AnalyzeDocument`, `AnalyzeFacial`, `AnalyzeInterview` and `AnalyzeSpeech` model the edge functions.
- `InterviewAnalysis`, `VideoBot`, `Dashboard`, `RecordingsPage`, `RecordingsStore`,
  `CustomModesPage`, `CustomModeStore`, `LoginPage`, `ProfilePage` and `SettingsPage` model the
  pages and hooks.
- `QuestionBank`, `QuestionGenerator`, `Validation` and `AppErrors` model the client libraries.
- `ServerApp`, `ResumeRoutes`, `Uploads`, `EmailService` and `OtpStore` model the server.

Five helper modules are shared:

- `JsCommon` has `Option`/`Result`, `Math.round`, clamping and the HTTP methods.
- `JsText` has JavaScript string operations on `seq<char>`: split, join, trim, ASCII lower-casing
  and decimal printing.
- `Seqs` has filtering, de-duplication and a stable descending sort.
- `ScoreStats` has the average and best of a list of scores.
- `RealTimeMetrics` has the live metrics snapshot that the analysis service and component share.

Pure code (scoring, grading, validation, question building, request handling) is modelled as
functions, each with lemmas about it. Stateful code (the services with fields, the React
components and hooks with their state and refs, the OTP store, and the retry count of
`useDashboard`, which `Dashboard.RetryBudget` holds) is modelled as classes. Their methods state
the whole new state. Four classes also keep a `Valid()` invariant:
`AnalysisService.AnalysisService`, `InterviewAnalysis.LiveAnalysis`,
`ServerApp.RecordingsDirectory` and `VideoBot.Session`. Timers are
explicit tick methods. Scores are `real`, and JavaScript's `Math.round(x)` is `Floor(x + 0.5)`.
Randomness, clocks, the outcomes of network and database calls, and model inferences are
parameters.

## Model

| member | source | states |
|---|---|---|
| AnalysisHook.PerformanceOf | src/hooks/useAnalysis.ts:114-118 | one chart point per interview, in the same order, carrying the date label and the score and duration with 0 for missing |
| AnalysisHook.SumFeedback | src/hooks/useAnalysis.ts:136-142 | the reduce over the feedback rows yields exactly the four column totals `TotalsOf` |
| AnalysisHook.StepTotals | src/hooks/useAnalysis.ts:137-141 | one reduce step adds the row's response-quality, clarity, structure and engagement scores to the running totals |
| AnalysisHook.SkillsOf | src/hooks/useAnalysis.ts:145-150 | exactly four skill bars, named Technical Knowledge, Communication, Problem Solving and Leadership in that order |
| AnalysisHook.SkillsRepeatCommunication | src/hooks/useAnalysis.ts:145-166 | the first three skill bars equal the examples, clarity and structure figures of the communication panel (they average the same columns) |
| AnalysisHook.MeanIsAverage | src/hooks/useAnalysis.ts:144-150 | the rounded total divided by the row count is the rounded average of the column |
| AnalysisHook.AveragesWithin | src/hooks/useAnalysis.ts:144-150 | when every row's score lies in [lo, hi], so does every rounded average |
| AnalysisHook.MeanWithinPercent | src/hooks/useAnalysis.ts:146-149 | a total of n percentages divided by n and rounded is a percentage |
| AnalysisHook.TotalWithinPercent | src/hooks/useAnalysis.ts:136-142 | a column of percentages sums to between 0 and 100 times the row count |
| AnalysisHook.TotalsWithinPercent | src/hooks/useAnalysis.ts:136-142 | all four totals of percentage columns lie between 0 and 100 times the row count |
| AnalysisHook.BarsWithinPercent | src/hooks/useAnalysis.ts:144-150 | totals within the percentage bound give skill bars between 0 and 100 |
| AnalysisHook.SkillsWithinPercent | src/hooks/useAnalysis.ts:136-150 | feedback scored in percentages yields skill bars between 0 and 100 |
| AnalysisHook.RecommendationsOf | src/hooks/useAnalysis.ts:169-173 | without feedback text the default recommendations; otherwise one recommendation per text line, in order, titled by its position |
| AnalysisHook.TitlesNumbered | src/hooks/useAnalysis.ts:171 | the k-th title is "Recommendation " followed by the decimal k + 1 |
| AnalysisHook.TitlesDistinct | src/hooks/useAnalysis.ts:171 | two different positions get different titles |
| AnalysisHook.UpdateOf | src/hooks/useAnalysis.ts:98-184 | the figures are replaced exactly when both queries return rows; the error message is set exactly when the interviews query fails, or when it returns rows and the feedback query fails |
| AnalysisHook.ReplacedFigures | src/hooks/useAnalysis.ts:114-179 | on replacement: one chart point per interview with its date and score, the recommendations of the newest feedback row, and the last interview as the latest |
| AnalysisHook.FeedbackIgnoredWithoutInterviews | src/hooks/useAnalysis.ts:105-111 | without interview rows the feedback answer makes no difference to the outcome |
| AnalysisHook.ReplacedAverages | src/hooks/useAnalysis.ts:144-166 | on replacement the skill bars and the communication panel are the rounded averages of their feedback columns |
| AnalysisHook.Analysis.constructor | src/hooks/useAnalysis.ts:74-80 | the hook starts with the default figures, loading and no error |
| AnalysisHook.Analysis.Fetch | src/hooks/useAnalysis.ts:83-191 | loading ends; signed out or unconfigured leaves figures and error unchanged; otherwise the figures and error become what `UpdateOf` decides |
| AnalysisHook.Analysis.Show | src/hooks/useAnalysis.ts:175-179 | the five setters replace the shown figures and nothing else |
| AnalysisLib.GradeOf | src/lib/analysis.ts:71 | an average of at least 80 is good, from 60 below 80 ok, below 60 poor, each grade exactly on its band |
| AnalysisLib.GradeMonotone | src/lib/analysis.ts:71 | a higher average never gets a worse grade |
| AnalysisLib.Normalize | src/lib/analysis.ts:65-67 | the clamp to [0, 100]: in range unchanged, below 0 gives 0, above 100 gives 100 |
| AnalysisLib.NormalizeIdempotent | src/lib/analysis.ts:65-67 | clamping twice is clamping once |
| AnalysisLib.PostureFeedback | src/lib/analysis.ts:69-72 | the grade of the mean of the four posture figures: good from 80, ok from 60, poor below |
| AnalysisLib.EmotionFeedback | src/lib/analysis.ts:74-77 | the grade of the mean of confidence, stability and engagement: good from 80, ok from 60, poor below |
| AnalysisLib.VoiceFeedback | src/lib/analysis.ts:79-82 | the grade of the mean of clarity, tone, volume and confidence: good from 80, ok from 60, poor below |
| AnalysisLib.MixedPostureIsOkay | src/lib/analysis.ts:69-72 | two perfect and two weak posture figures average 70 and grade ok, although no figure is in the ok band |
| AnalysisLib.PostureMonotone | src/lib/analysis.ts:69-72 | a straighter back never gives a worse posture grade |
| AnalysisLib.VoiceIgnoresSpeechRate | src/lib/analysis.ts:80 | the voice grade does not depend on the speech rate |
| AnalysisLib.AdviceForPoorGrades | src/lib/analysis.ts:84-98 | one advice line per poor grade, at most three; the posture, engagement and tone lines appear exactly when their grade is poor, in that order |
| AnalysisLib.GenerateRecommendations | src/lib/analysis.ts:84-98 | the pushes produce exactly the advice list `AdviceFor` of the grades |
| AnalysisLib.HeadTilt | src/lib/analysis.ts:109 | the head-tilt figure is a percentage, 100 exactly for an untilted head, 0 from a tilt of 100 on, and 100 minus the tilt otherwise |
| AnalysisLib.EmotionConfidence | src/lib/analysis.ts:115 | the emotion confidence is a percentage, and a fraction in [0, 1] becomes that fraction of 100 |
| AnalysisLib.Normalized | src/lib/analysis.ts:106-126 | every normalised metric is the clamp to [0, 100] of its input (head tilt as 100 minus its magnitude, confidence times 100); the primary emotion is passed through |
| AnalysisLib.NormalizedInRange | src/lib/analysis.ts:106-126 | inputs already in range pass through unchanged (head tilt as 100 minus the tilt, confidence times 100) |
| AnalysisLib.AnalyzeInterview | src/lib/analysis.ts:100-147 | fails with "Failed to analyze interview" exactly when a pose, facial or voice block is missing; otherwise the metrics are `Normalized` of the three blocks, with the grades of those metrics and the advice for those grades |
| AnalysisLib.InRangeInterviewReported | src/lib/analysis.ts:100-147 | for in-range blocks the report shows the posture as given (head tilt as 100 minus its magnitude) and the clarity as given, grades tone by the mean of the four voice figures, and gives one advice line per poor grade |
| AnalysisService.AnalysisService.constructor | src/services/analysis.ts:10-13 | a new service has no detectors and is not initialised |
| AnalysisService.AnalysisService.Initialize | src/services/analysis.ts:15-64 | a no-op once initialised; otherwise each detector is kept as soon as it is created, a failing step is rethrown, and the service is initialised exactly when no step fails |
| AnalysisService.InitializeTwice | src/services/analysis.ts:16 | a second `initialize` after a successful one reports success whatever would fail, and the service stays initialised |
| AnalysisService.AnalysisService.AnalyzePose | src/services/analysis.ts:66-91 | throws "Pose detector not initialized" without a detector and "No pose detected" for no pose; otherwise the four constant posture figures |
| AnalysisService.AnalysisService.AnalyzeFacialExpressions | src/services/analysis.ts:93-150 | throws "Face detectors not initialized" without both face detectors and "No face detected" without a face; otherwise a known emotion label, the visibility-based confidence of the first face, stability 0.85 and engagement 0.9 (corrected, see Findings) |
| AnalysisService.MaxAbs | src/services/analysis.ts:154 | the largest absolute sample value, attained by some sample; none for an empty buffer |
| AnalysisService.AnalyzeVoice | src/services/analysis.ts:152-167 | the volume is the largest absolute sample; clarity, speech rate, tone and confidence are the constants 0.8, 0.75, 0.9 and 0.85 |
| AnalysisService.VoiceVolumeBounds | src/services/analysis.ts:154 | a non-empty buffer has a volume, and it is never negative |
| AnalysisService.LandmarkEmotions | src/services/analysis.ts:169-193 | five scores (neutral, happy, sad, angry, surprised); a mouth curvature above 0.1 gives happy 0.8 and neutral 0.2, otherwise neutral 0.5 and happy 0; the rest are 0 |
| AnalysisService.PrimaryIndex | src/services/analysis.ts:117-118 | the reduce picks a largest score, and no later entry has that score |
| AnalysisService.TiesGoToTheLater | src/services/analysis.ts:117-118 | of two equal scores, the earlier one is never the pick |
| AnalysisService.LandmarkPrimaryEmotion | src/services/analysis.ts:187-190 | a smile reads as happy, anything else as neutral |
| AnalysisService.FaceConfidenceAsWritten | src/services/analysis.ts:129 | as written: 0.95 exactly when some point has a truthy `visibility ?? (1 > 0.9)`, else 0.7 |
| AnalysisService.FaceConfidence | src/services/analysis.ts:129 | as intended: 0.95 exactly when some point's visibility (1 when missing) exceeds 0.9, else 0.7 |
| AnalysisService.HalfVisibleMesh | src/services/analysis.ts:129 | a mesh of half-visible points gets 0.95 as written and 0.7 as intended |
| AnalysisService.WrittenTestIsLooser | src/services/analysis.ts:129 | every point the intended test accepts, the written one accepts too |
| AnalyzeDocument.ExtractSkills | supabase/functions/analyze-document/index.ts:66-77 | exactly the common skills that the lower-cased text contains as substrings |
| AnalyzeDocument.SkillsInListOrder | supabase/functions/analyze-document/index.ts:74-76 | the found skills keep the order of the skill list |
| AnalyzeDocument.ExtractExperience | supabase/functions/analyze-document/index.ts:79-86 | exactly the newline-separated lines that mention a year and are longer than 30 characters, in their order |
| AnalyzeDocument.ExtractEducation | supabase/functions/analyze-document/index.ts:88-97 | exactly the lines whose lower-cased text contains one of the five education keywords, in their order |
| AnalyzeDocument.YearNeedsBoundary | supabase/functions/analyze-document/index.ts:83 | a letter or underscore glued to the front of a line loses the year at its very start and keeps every other year of the line |
| AnalyzeDocument.ShiftedYear | supabase/functions/analyze-document/index.ts:83 | past the glued character, a year sits in the longer line exactly where it sat in the line, one place on |
| AnalyzeDocument.GenerateQuestions | supabase/functions/analyze-document/index.ts:99-139 | the pushes build exactly the question list `DocumentQuestions` for the skills and for whether experience and education were found |
| AnalyzeDocument.QuestionShape | supabase/functions/analyze-document/index.ts:104-138 | two questions per skill in skill order, three more with experience, two more with education, and the three general questions last |
| AnalyzeDocument.Handle | supabase/functions/analyze-document/index.ts:10-64 | OPTIONS gets the preflight; a throwing form, a missing file or a failing PDF parse is a 400 with the thrown message; a 200 otherwise, carrying the questions for the file's text (PDF text for a PDF, the decoded bytes otherwise) |
| AnalyzeDocument.RepliedQuestionsEndWithGeneral | supabase/functions/analyze-document/index.ts:132-136 | every question list has at least three entries and ends with the staying-current question |
| AnalyzeFacial.Validated | supabase/functions/analyze-facial/index.ts:155-165 | a body that passes the check yields the typed payload with all seven fields unchanged |
| AnalyzeFacial.MaxChange | supabase/functions/analyze-facial/index.ts:414-415 | the largest absolute coordinate change between two rows: never negative, at least every single change, and attained by one coordinate |
| AnalyzeFacial.Changes | supabase/functions/analyze-facial/index.ts:412-416 | one non-negative change per consecutive pair of rows |
| AnalyzeFacial.Variance | supabase/functions/analyze-facial/index.ts:409-419 | 0 for fewer than two rows, otherwise the sum of the changes between consecutive rows divided by their number; never negative |
| AnalyzeFacial.LandmarkVariance | supabase/functions/analyze-facial/index.ts:409-419 | the loop's pushes and the final average compute exactly `Variance`, which is never negative |
| AnalyzeFacial.StillFaceNoVariance | supabase/functions/analyze-facial/index.ts:412-418 | rows that never change sum to no change at all |
| AnalyzeFacial.MovementScore | supabase/functions/analyze-facial/index.ts:399-402 | within 0..100, and 100 for a face that does not move |
| AnalyzeFacial.StabilityScore | supabase/functions/analyze-facial/index.ts:404-407 | within 0..100, 100 for a face that does not move, and never above the movement score |
| AnalyzeFacial.Alignment | supabase/functions/analyze-facial/index.ts:333-338 | 0 for fewer than two points, otherwise within 0..100, and 100 for level shoulders |
| AnalyzeFacial.ArmPosition | supabase/functions/analyze-facial/index.ts:340-345 | 0 for fewer than two points, otherwise within 0..100, and 100 once the arms are 10 apart |
| AnalyzeFacial.BodyConfidence | supabase/functions/analyze-facial/index.ts:327-331 | the weighted alignment and arm figures round to a score in 0..100 |
| AnalyzeFacial.EyeContactScore | supabase/functions/analyze-facial/index.ts:189-193 | always within 0..100; full gaze with a straight head gives 100, no gaze with a turn of 50 or more gives 0 |
| AnalyzeFacial.EmotionalEngagement | supabase/functions/analyze-facial/index.ts:321-325 | positive less negative emotions, clamped to 0..100 |
| AnalyzeFacial.EngagementScore | supabase/functions/analyze-facial/index.ts:195-200 | always within 0..100 |
| AnalyzeFacial.ConfidenceScore | supabase/functions/analyze-facial/index.ts:202-211 | always within 0..100 |
| AnalyzeFacial.Entries | supabase/functions/analyze-facial/index.ts:214 | the seven emotion entries |
| AnalyzeFacial.InsertDescending | supabase/functions/analyze-facial/index.ts:215 | inserting one entry grows the list by one |
| AnalyzeFacial.InsertAdds | supabase/functions/analyze-facial/index.ts:215 | inserting adds exactly that entry and loses none |
| AnalyzeFacial.InsertKeepsOrder | supabase/functions/analyze-facial/index.ts:215 | inserting into a descending list keeps it descending |
| AnalyzeFacial.SortDescending | supabase/functions/analyze-facial/index.ts:215 | the sort by score, highest first, is a permutation of the entries |
| AnalyzeFacial.SortedHead | supabase/functions/analyze-facial/index.ts:215-216 | the first sorted entry is one of the entries, with the largest score |
| AnalyzeFacial.TopTwoPrimary | supabase/functions/analyze-facial/index.ts:213-223 | the primary emotion is a highest-scoring entry, and the intensity is its score times 100, rounded |
| AnalyzeFacial.TopTwoSecondary | supabase/functions/analyze-facial/index.ts:216-220 | the secondary emotion is an entry scoring no more than the primary one |
| AnalyzeFacial.Find | supabase/functions/analyze-facial/index.ts:243 | the map lookup finds an entry of that type, or reports that there is none |
| AnalyzeFacial.Kinds | supabase/functions/analyze-facial/index.ts:250-251 | the types of the map's entries, in insertion order |
| AnalyzeFacial.TotalCountUpdate | supabase/functions/analyze-facial/index.ts:244-247 | replacing one entry changes the total count by the difference of the two counts |
| AnalyzeFacial.RecordKinds | supabase/functions/analyze-facial/index.ts:243-247 | counting a gesture adds its type at the end when it is new and keeps the types otherwise |
| AnalyzeFacial.RecordCounts | supabase/functions/analyze-facial/index.ts:243-247 | counting a gesture raises the total count by one and keeps every count positive |
| AnalyzeFacial.TallyShape | supabase/functions/analyze-facial/index.ts:240-248 | the map has one entry per distinct type in first-seen order, all counts positive, summing to the number of gestures |
| AnalyzeFacial.TallyDistinct | supabase/functions/analyze-facial/index.ts:240-248 | the map never holds two entries of one type |
| AnalyzeFacial.RecordStep | supabase/functions/analyze-facial/index.ts:243-247 | counting one more gesture keeps every entry's count and confidence total equal to those of the gestures seen so far |
| AnalyzeFacial.TallyCounts | supabase/functions/analyze-facial/index.ts:240-248 | each entry holds the number of gestures of its type and the sum of their confidences, and a type without an entry has no gestures |
| AnalyzeFacial.FirstSeenDistinct | supabase/functions/analyze-facial/index.ts:240-248 | the types in first-seen order are distinct and include every gesture's type |
| AnalyzeFacial.Summaries | supabase/functions/analyze-facial/index.ts:250-254 | per type its count as the frequency and its rounded mean confidence in percent as the appropriateness |
| AnalyzeFacial.SummariesTotal | supabase/functions/analyze-facial/index.ts:250-254 | the frequencies of the summaries sum to the total count of the map |
| AnalyzeFacial.SummaryOfExact | supabase/functions/analyze-facial/index.ts:250-254 | a summary of an exact entry has the gestures' count and their rounded mean confidence in percent |
| AnalyzeFacial.SummariesExact | supabase/functions/analyze-facial/index.ts:239-255 | every summary of the gestures' map has the number of gestures of its type as frequency, at least 1, and their rounded mean confidence in percent as appropriateness |
| AnalyzeFacial.GestureAnalysis | supabase/functions/analyze-facial/index.ts:239-255 | one summary per distinct type, in first-seen order: its frequency is the number of gestures of that type, its appropriateness their mean confidence in percent, rounded; the frequencies sum to the number of gestures |
| AnalyzeFacial.AnalyzeGestures | supabase/functions/analyze-facial/index.ts:239-255 | the forEach over the gestures fills the map so that the result is exactly `GestureAnalysis`: per distinct type its number of gestures and their rounded mean confidence in percent |
| AnalyzeFacial.OverallBodyLanguage | supabase/functions/analyze-facial/index.ts:347-353 | no number at all (NaN) exactly when there are no gestures |
| AnalyzeFacial.AdvicePairs | supabase/functions/analyze-facial/index.ts:272-305 | at most five advice pairs, one per rule that fires, in rule order |
| AnalyzeFacial.PushBoth | supabase/functions/analyze-facial/index.ts:277-278 | pushing one line onto each list keeps the two lists in step with the pairs |
| AnalyzeFacial.GenerateRecommendations | supabase/functions/analyze-facial/index.ts:265-306 | the immediate and long-term lists are the two halves of the same selected pairs, so they always have equal length, at most five |
| AnalyzeFacial.Advice | supabase/functions/analyze-facial/index.ts:305 | the two returned lists have equal length, at most five |
| AnalyzeFacial.NoGesturesNoBodyAdvice | supabase/functions/analyze-facial/index.ts:294-351 | without gestures the overall score is NaN, which never asks for body-language advice |
| AnalyzeFacial.ProcessAnalysis | supabase/functions/analyze-facial/index.ts:167-187 | eye contact, engagement and confidence within 0..100 and recommendation lists of equal length at most five |
| AnalyzeFacial.Handle | supabase/functions/analyze-facial/index.ts:75-153 | OPTIONS gives 204, another non-POST 405, an unparsable or invalid body 400 ("Invalid facial data format" for a parsed one), and 200 exactly for POST with a valid body, carrying the validated payload |
| AnalyzeInterview.ConfidenceScore | supabase/functions/analyze-interview/index.ts:136-150 | features in their ranges give a percentage; all best gives 100, all worst gives 0 |
| AnalyzeInterview.FillerPenalty | supabase/functions/analyze-interview/index.ts:159-160 | five points per filler word, capped at 30 from six fillers on |
| AnalyzeInterview.ClarityScore | supabase/functions/analyze-interview/index.ts:152-163 | never negative; at most 100 for clarity up to 1; without fillers the rounded clarity percentage; 0 once the penalty reaches the clarity |
| AnalyzeInterview.EyeContactScore | supabase/functions/analyze-interview/index.ts:165-173 | a gaze within 45 degrees and a confidence in [0, 1] give a percentage; a straight, certain gaze gives 100 |
| AnalyzeInterview.EngagementScore | supabase/functions/analyze-interview/index.ts:175-188 | expressions in [0, 1] give a percentage; all 1 gives 100, all 0 gives 0 |
| AnalyzeInterview.SpeechRateScore | supabase/functions/analyze-interview/index.ts:190-202 | exactly 100 from 110 to 150 wpm; below 110 the rounded share of 110; above 150 a percentage, reaching 0 at 350; a percentage for every non-negative rate |
| AnalyzeInterview.SkipStops | supabase/functions/analyze-interview/index.ts:209 | drops exactly the leading run of terminators: a suffix that starts with a non-terminator |
| AnalyzeInterview.SplitRuns | supabase/functions/analyze-interview/index.ts:209-227 | splitting at runs of `.`, `!` and `?` gives at least one piece and no piece holds a terminator |
| AnalyzeInterview.SplitRunsWithout | supabase/functions/analyze-interview/index.ts:209 | text without a terminator is a single piece |
| AnalyzeInterview.SplitRunsAtStop | supabase/functions/analyze-interview/index.ts:209 | a terminator between two pieces separates them |
| AnalyzeInterview.SplitRunsJoin | supabase/functions/analyze-interview/index.ts:209 | splitting pieces joined by "." gives the pieces back, when no inner piece is empty |
| AnalyzeInterview.ExactAverage | supabase/functions/analyze-interview/index.ts:217-218 | fifteen words per sentence is a mean of exactly 15, which carries no penalty |
| AnalyzeInterview.NonBlank | supabase/functions/analyze-interview/index.ts:227 | keeps exactly the pieces that are not blank after trimming |
| AnalyzeInterview.WordCount | supabase/functions/analyze-interview/index.ts:208 | splitting at spaces always gives at least one word |
| AnalyzeInterview.ResponseQualityScore | supabase/functions/analyze-interview/index.ts:204-221 | always a percentage; under 20 words five points a word, so below 100; 20 words or more at 15 words a sentence gives 100 |
| AnalyzeInterview.AnswerStructureScore | supabase/functions/analyze-interview/index.ts:223-247 | always a percentage; fewer than two sentences give 0 or 50 (0 for none); otherwise 30 for an intro over 20 characters, 30 for such a conclusion and 10 per transition up to 40 |
| AnalyzeInterview.OneSentenceStructure | supabase/functions/analyze-interview/index.ts:227-231 | a single sentence without terminators scores 50 |
| AnalyzeInterview.LowScores | supabase/functions/analyze-interview/index.ts:249-295 | at most seven scores are below 70 |
| AnalyzeInterview.GenerateRecommendations | supabase/functions/analyze-interview/index.ts:249-295 | the seven guarded pushes build exactly `Recommendations` of the scores |
| AnalyzeInterview.RecommendationCount | supabase/functions/analyze-interview/index.ts:249-295 | exactly one message per score below 70, so at most seven |
| AnalyzeInterview.SelectContains | supabase/functions/analyze-interview/index.ts:249-295 | a selection holds exactly the flagged items |
| AnalyzeInterview.RecommendationsSelect | supabase/functions/analyze-interview/index.ts:249-295 | the messages are those of the low scores, in score order: each low score's message is present, and only those |
| AnalyzeInterview.Handle | supabase/functions/analyze-interview/index.ts:48-134 | OPTIONS is answered with the preflight; an unparsable body gives a 500 with the parse error; a missing transcript, video or audio block gives the seven zero metrics and "No clear response detected"; otherwise the metrics are `AllScores` of the three blocks and the recommendations those of the low scores |
| AnalyzeInterview.AllScores | supabase/functions/analyze-interview/index.ts:80-87 | the clarity score is never negative and the response-quality and structure scores are percentages for any input |
| AnalyzeInterview.HandledScoresInRange | supabase/functions/analyze-interview/index.ts:48-134 | a usable body with features in their documented ranges is scored with five percentages among its metrics, and its recommendations are exactly the messages of the low scores, one per low score |
| AnalyzeInterview.ScoresInRange | supabase/functions/analyze-interview/index.ts:136-247 | features in their documented ranges give seven scores between 0 and 100 |
| AnalyzeSpeech.Words | supabase/functions/analyze-speech/index.ts:69 | splitting at spaces always gives at least one word |
| AnalyzeSpeech.FillerCount | supabase/functions/analyze-speech/index.ts:70-72 | at most one filler per word, and none exactly when no word matches the filler test |
| AnalyzeSpeech.Clarity | supabase/functions/analyze-speech/index.ts:67-78 | always within 0..100; 100 without fillers; 0 once at least half the words are fillers |
| AnalyzeSpeech.RatioBounds | supabase/functions/analyze-speech/index.ts:74 | no fillers is a ratio of 0, and half or more of the words a ratio of at least 0.5 |
| AnalyzeSpeech.ClarityOfRatio | supabase/functions/analyze-speech/index.ts:75-77 | always within 0..100; ratio 0 gives 100 and a ratio of at least 0.5 gives 0 |
| AnalyzeSpeech.WordsPerMinute | supabase/functions/analyze-speech/index.ts:82-84 | infinite exactly for a zero duration; otherwise the rate times the duration is sixty times the word count |
| AnalyzeSpeech.PaceScore | supabase/functions/analyze-speech/index.ts:87-89 | within 0..100; 100 at 145 wpm, 0 for an infinite rate or one 200 or more away, otherwise 100 less half the distance |
| AnalyzeSpeech.PaceVariation | supabase/functions/analyze-speech/index.ts:92 | at most 100, exactly 100 for pace 1, and non-negative exactly for a pace between -1 and 3 |
| AnalyzeSpeech.SpeechRate | supabase/functions/analyze-speech/index.ts:80-95 | at most 100; 145 wpm at pace 1 gives 100; never negative for a pace between -1 and 3 |
| AnalyzeSpeech.SquaredDeviations | supabase/functions/analyze-speech/index.ts:102 | the sum of squared deviations is never negative |
| AnalyzeSpeech.Average | supabase/functions/analyze-speech/index.ts:101-134 | undefined (NaN) exactly for no samples |
| AnalyzeSpeech.Variance | supabase/functions/analyze-speech/index.ts:102 | never negative |
| AnalyzeSpeech.VolumeScore | supabase/functions/analyze-speech/index.ts:97-109 | 0 for no samples; otherwise within 0..100, given any non-negative square root of the variance |
| AnalyzeSpeech.VolumeLevel | supabase/functions/analyze-speech/index.ts:105 | within 0..100, and the average times 100 for an average in [0, 1] |
| AnalyzeSpeech.Consistency | supabase/functions/analyze-speech/index.ts:106 | within 0..100, and 100 exactly for no spread |
| AnalyzeSpeech.SteadySum | supabase/functions/analyze-speech/index.ts:101-102 | constant samples sum to count times value, with no deviation |
| AnalyzeSpeech.SteadyVolume | supabase/functions/analyze-speech/index.ts:97-109 | a steady volume has no variance and scores 60% of its level plus 40 |
| AnalyzeSpeech.GenerateRecommendations | supabase/functions/analyze-speech/index.ts:111-147 | the guarded pushes build exactly `AdviceFor`, at most three messages |
| AnalyzeSpeech.AdviceMeaning | supabase/functions/analyze-speech/index.ts:111-147 | filler advice iff clarity is below 70; slow-down iff the rate score is below 70 and the rate exceeds 160 (or is infinite); pick-up iff below 70 and under 130; speak-up and moderate iff the volume score is below 70 and the average is below 0.5 or above 0.8 |
| AnalyzeSpeech.Analyse | supabase/functions/analyze-speech/index.ts:33-45 | clarity and volume within 0..100, the rate at most 100, and at most three recommendations |
| AnalyzeSpeech.Handle | supabase/functions/analyze-speech/index.ts:24-65 | OPTIONS gives the preflight; an unparsable body or one without speech data is a 400 (with the parser's message for the former); otherwise the analysis of the speech data |
| Api.VideoFeatures | src/lib/api.ts:42-57 | smile 0.8 when visible else 0; attention 0.9 above contrast 50 else 0.5; engagement 0.8 above brightness 50 else 0.4; gaze confidence 0.9 when visible else 0; a level head looking straight ahead |
| Api.AudioFeatures | src/lib/api.ts:58-63 | volume and clarity passed through, no pitch samples, and always 120 words per minute |
| Api.ReceivedAsWritten | src/lib/api.ts:39-65 | the body as sent has no `interviewData` key, so the edge function finds none |
| Api.ReceivedWrapped | src/lib/api.ts:39-65 | sent under `interviewData`, the body is usable exactly when the transcript is non-empty |
| Api.Interpret | src/lib/api.ts:67-86 | a transport error or a non-2xx reply is rethrown as "Failed to analyze interview"; otherwise Confidence, Clarity and Engagement unchanged, posture graded from Confidence, emotion from Engagement and tone from Clarity at 80/60, and the recommendations copied when present |
| Api.AsWrittenNeverScores | src/lib/api.ts:39-82 | as written, every call that reaches the function reports three zero metrics, three poor grades and no recommendations |
| Api.WrappedIsScored | src/lib/api.ts:39-82 | with the body under `interviewData`, a non-empty transcript is scored with the edge function's confidence, clarity and engagement for the sent features, and recommendations are passed on |
| AppErrors.New | src/lib/errors.ts:1-10 | message, code and details as given; the status defaults to 400 |
| AppErrors.BadRequest | src/lib/errors.ts:12-14 | code BAD_REQUEST with status 400 |
| AppErrors.Unauthorized | src/lib/errors.ts:16-18 | code UNAUTHORIZED with status 401, message "Unauthorized" unless one is given |
| AppErrors.NotFound | src/lib/errors.ts:20-22 | code NOT_FOUND with status 404 |
| AppErrors.ValidationError | src/lib/errors.ts:24-26 | code VALIDATION_ERROR with status 422 |
| AppErrors.DatabaseError | src/lib/errors.ts:28-30 | code DATABASE_ERROR with status 500 |
| AppErrors.HandleError | src/lib/errors.ts:33-43 | an AppError is returned unchanged; anything else becomes UNKNOWN_ERROR with status 500, keeping an Error's message and otherwise "An unknown error occurred" |
| AppErrors.HandleErrorIdempotent | src/lib/errors.ts:34-36 | handling an already handled error changes nothing |
| AppErrors.ServerErrorsShareStatus | src/lib/errors.ts:28-40 | a database error and a wrapped plain error share status 500 but differ in code |
| CustomModesPage.FormIssues | src/pages/CustomModes.tsx:27-32 | no issue exactly when the name has 1 to 100 characters and type and difficulty are among the page's options; each issue present exactly when its rule fails; every issue names a top-level field |
| CustomModesPage.SchemasDisagree | src/pages/CustomModes.tsx:27-32 | a two-letter "case-study" mode at "expert" passes this page's schema and fails the shared mode schema on its name and type |
| CustomModesPage.LastPerField | src/pages/CustomModes.tsx:75-80 | the errors record has a key exactly for each field some issue names |
| CustomModesPage.LastIssueWins | src/pages/CustomModes.tsx:76-79 | each field keeps the message of its last issue |
| CustomModesPage.CollectErrors | src/pages/CustomModes.tsx:75-80 | the forEach over the issues builds exactly `LastPerField` |
| CustomModesPage.Toggled | src/pages/CustomModes.tsx:355-362 | toggling flips the named setting and keeps every other setting and the key set |
| CustomModesPage.ToggleTwice | src/pages/CustomModes.tsx:355-362 | toggling the same setting twice restores the settings |
| CustomModesPage.DraftOf | src/pages/CustomModes.tsx:96-103 | the saved draft carries the form's name, type, difficulty and settings |
| CustomModesPage.CreatedKeepsFormSettings | src/pages/CustomModes.tsx:101 | a mode created from the form keeps the form's settings |
| CustomModesPage.Page.constructor | src/pages/CustomModes.tsx:48-66 | the page starts closed, not editing, with the default form and no errors |
| CustomModesPage.Page.ValidateForm | src/pages/CustomModes.tsx:68-85 | true exactly when the form has no issue; the errors become the last message per field; nothing else changes |
| CustomModesPage.Page.ResetForm | src/pages/CustomModes.tsx:136-154 | the default form and no errors, nothing else changed |
| CustomModesPage.Page.OpenNew | src/pages/CustomModes.tsx:194-197 | opens the form with the default values |
| CustomModesPage.Page.Cancel | src/pages/CustomModes.tsx:156-160 | closes the form, leaves edit mode and resets the form |
| CustomModesPage.Page.Edit | src/pages/CustomModes.tsx:112-122 | edits the given mode: its id, its four fields in the form, the form open and no errors |
| CustomModesPage.Page.ToggleSetting | src/pages/CustomModes.tsx:355-362 | flips exactly one setting of the form and nothing else |
| CustomModesPage.Page.Submit | src/pages/CustomModes.tsx:87-110 | an invalid form saves nothing and shows its errors; a valid one is saved as an update while editing and as a create otherwise; a successful save closes and resets the form, a failed one leaves it as it was |
| CustomModeStore.NewModeRow | src/hooks/useCustomModes.ts:58-78 | the inserted row carries the draft's name, type and difficulty, the user and the time stamps, and the draft's settings or else the nine defaults |
| CustomModeStore.DefaultsCoverEverySwitch | src/hooks/useCustomModes.ts:58-68 | without settings every one of the nine switches is present, and all are on except multilingual support |
| CustomModeStore.Merge | src/hooks/useCustomModes.ts:120 | `{ ...m, ...data }`: each of the eight fields is the returned column when present and the mode's own value otherwise |
| CustomModeStore.MergeIdempotent | src/hooks/useCustomModes.ts:120 | merging the same returned row twice is merging it once |
| CustomModeStore.MergeNothing | src/hooks/useCustomModes.ts:120 | merging an empty row changes nothing |
| CustomModeStore.Updated | src/hooks/useCustomModes.ts:119-121 | same length and order; the modes with the id are merged with the returned row and the others are unchanged |
| CustomModeStore.UpdateIdempotent | src/hooks/useCustomModes.ts:119-121 | applying the same update twice is applying it once |
| CustomModeStore.UpdateKeepsIds | src/hooks/useCustomModes.ts:119-121 | a returned row without an id keeps every mode's id |
| CustomModeStore.Deleted | src/hooks/useCustomModes.ts:145 | exactly the modes with another id remain, in their order |
| CustomModeStore.DeleteAbsent | src/hooks/useCustomModes.ts:145 | deleting an absent id changes nothing |
| CustomModeStore.DeleteIdempotent | src/hooks/useCustomModes.ts:145 | deleting the same id twice is deleting it once |
| CustomModeStore.CustomModes.constructor | src/hooks/useCustomModes.ts:17-19 | no modes, loading, no error |
| CustomModeStore.CustomModes.Fetch | src/hooks/useCustomModes.ts:22-49 | signed out nothing changes; otherwise loading ends and the modes become the rows (none for missing data), or a failure keeps the modes and sets "Failed to load custom modes" |
| CustomModeStore.CustomModes.Create | src/hooks/useCustomModes.ts:51-95 | signed out nothing is sent; otherwise the row `NewModeRow` is inserted, the created mode is prepended to the unchanged list, and a failed insert keeps the list and rethrows |
| CustomModeStore.CustomModes.Update | src/hooks/useCustomModes.ts:97-128 | signed out nothing changes; otherwise the list becomes `Updated` with the returned row, and a failed update keeps the list and rethrows |
| CustomModeStore.CustomModes.Delete | src/hooks/useCustomModes.ts:130-152 | signed out nothing changes; otherwise the list becomes `Deleted`, and a failed delete keeps the list and rethrows |
| Dashboard.Retry | src/hooks/useDashboard.ts:43-63 | `fetchWithRetry` over the shared count: with the budget of 3 already spent the read is skipped (`null`) with no waits; otherwise the count ends between its start and 3, a thrown result means the count reached 3 after one wait fewer than the calls made, a value means the count stayed below 3, and the i-th wait is 1000 ms times the count reached |
| Dashboard.RetryGetsFirstValue | src/hooks/useDashboard.ts:47-50 | after j failing calls within the budget, the first call that resolves is the value returned, and the count has grown by j |
| Dashboard.RetryThrowsLast | src/hooks/useDashboard.ts:52-57 | when every call within the budget throws, the read throws the read's message followed by the last call's message |
| Dashboard.RetryExhausted | src/hooks/useDashboard.ts:47-62 | a read started with the budget spent makes no call and gives `null` |
| Dashboard.StatsOf | src/hooks/useDashboard.ts:85-90 | without interviews the totals, the average and the best are 0; the total is the number of interviews; the practice hours are the practised seconds rounded to the nearest hour |
| Dashboard.PracticeSeconds | src/hooks/useDashboard.ts:93-104 | no recordings means no practice time |
| Dashboard.ProgressOf | src/hooks/useDashboard.ts:110-123 | one point per weekly row, in order, labelled with the row's day name and carrying its score, 0 when it has none |
| Dashboard.MessageOr | src/hooks/useDashboard.ts:146-150 | the shown error is never empty: an empty message falls back to the default text |
| Dashboard.LoadOf | src/hooks/useDashboard.ts:65-156 | one run of the reads, stopping at the first error: at most two waits in all, the i-th of them 1000 ms times i, because the four reads share one budget |
| Dashboard.FirstCallsResolve | src/hooks/useDashboard.ts:65-145 | when every read's first call answers without error, the run loads the figures computed from those answers with no wait |
| Dashboard.SharedBudget | src/hooks/useDashboard.ts:40-96 | after two failed interview calls the recordings read has one call left: if it throws, the run fails with the recordings message after waits of 1000 and 2000 ms |
| Dashboard.InterviewsGiveUp | src/hooks/useDashboard.ts:52-82 | three failing interview calls make the run fail with the interviews message and the last error |
| Dashboard.InterviewsErrorAnswer | src/hooks/useDashboard.ts:73-82 | an interviews answer carrying an error fails the run with that error's message, before any other read |
| Dashboard.RetryBudget.constructor | src/hooks/useDashboard.ts:40 | the shared retry count starts at 0 |
| Dashboard.RetryBudget.FetchWithRetry | src/hooks/useDashboard.ts:43-63 | the loop's result, count and waits are those of `Retry` from the count it started with |
| Dashboard.RetryStep | src/hooks/useDashboard.ts:52-59 | one thrown call below the last retry adds a wait of 1000 ms times the new count before the remaining calls; at the last retry it ends the read with the thrown message |
| Dashboard.DashboardData.constructor | src/hooks/useDashboard.ts:25-34 | initial state: zero figures, empty progress and feedback, loading, no error |
| Dashboard.DashboardData.FetchDashboardData | src/hooks/useDashboard.ts:36-163 | without a user nothing changes; otherwise the run's outcome is `LoadOf`'s; once unmounted nothing is set and loading stays on; when mounted loading ends and either all figures are set and the error cleared, or only the error is set |
| Dashboard.Reading | src/hooks/useDashboard.ts:65-156 | the reads in order from a fresh budget give the outcome and waits of `LoadOf` |
| EmailService.Mask | server/services/email.js:3-7 | an unset or empty value masks to the empty string; up to four characters become that many stars; a longer value keeps its first two and last two characters around three stars |
| EmailService.MaskHidesMiddle | server/services/email.js:6 | the middle of a masked long value is all stars, whatever the value |
| EmailService.TransportFor | server/services/email.js:10-48 | the configuration error exactly when host, user or password is unset or empty; otherwise the transport carries them, the port is the parsed SMTP_PORT or 587, the connection is secure exactly on port 465, and the sender is SMTP_FROM or else the user |
| EmailService.DefaultPortInsecure | server/services/email.js:22-23 | a configured server without SMTP_PORT is reached on port 587 without TLS |
| InterviewAnalysis.ComputePct | src/components/InterviewAnalysis.tsx:187-192 | the change in percentage points, values up to 1 read as fractions, clamped to ±100: exactly the difference when it lies within ±100, else the bound it passes |
| InterviewAnalysis.ComputePctAntisymmetric | src/components/InterviewAnalysis.tsx:187-192 | swapping the two readings negates the change |
| InterviewAnalysis.ComputePctUnchanged | src/components/InterviewAnalysis.tsx:187-192 | a reading compared with itself shows no change |
| InterviewAnalysis.ComputePctFromZero | src/components/InterviewAnalysis.tsx:189-191 | a percentage above 1 compared with 0 shows as itself |
| InterviewAnalysis.ComputePctOfFractions | src/components/InterviewAnalysis.tsx:188-191 | two fractions differ by 100 times their difference, which never needs the clamp |
| InterviewAnalysis.Deltas | src/components/InterviewAnalysis.tsx:204-217 | the six shown changes, each the clamped change of its own figure between the two readings, all within ±100 |
| InterviewAnalysis.DeltasAgainstSelf | src/components/InterviewAnalysis.tsx:204-217 | metrics compared with themselves show no change in any figure |
| InterviewAnalysis.Alerts | src/components/InterviewAnalysis.tsx:267-290 | at most three alerts: the first ones, in order, of the conditions that hold |
| InterviewAnalysis.GenerateAlerts | src/components/InterviewAnalysis.tsx:267-290 | the loop pushing alerts yields `Alerts` |
| InterviewAnalysis.AlertsEmpty | src/components/InterviewAnalysis.tsx:270-289 | no alert exactly when none of the six thresholds is crossed |
| InterviewAnalysis.PostureAlertFirst | src/components/InterviewAnalysis.tsx:270-272 | a back straightness under 70 always puts the posture alert first |
| InterviewAnalysis.AllAlertsRaised | src/components/InterviewAnalysis.tsx:270-289 | when the first three conditions hold, those three alerts fill the list and the rest are cut |
| InterviewAnalysis.OnlyFillerAlert | src/components/InterviewAnalysis.tsx:270-289 | with every figure on target but more than five filler words, the filler alert is the only one |
| InterviewAnalysis.BuildSuggestions | src/components/InterviewAnalysis.tsx:308-321 | at most five suggestions, the first ones in order of the conditions that hold; none exactly when every figure is within its target |
| InterviewAnalysis.VolumeSuggestionsExclusive | src/components/InterviewAnalysis.tsx:318-319 | the suggestions never ask to speak both more quietly and louder |
| InterviewAnalysis.NoVolumeBefore | src/components/InterviewAnalysis.tsx:310-317 | neither volume suggestion comes from the eight rules before the volume rules |
| InterviewAnalysis.SuggestionsAreCandidates | src/components/InterviewAnalysis.tsx:308-321 | every suggestion shown is one of the candidate suggestions |
| InterviewAnalysis.LiveFeedback | src/components/InterviewAnalysis.tsx:594-598 | between one and five lines: the single praise line when every figure is on target, the suggestions otherwise |
| InterviewAnalysis.Last | src/components/InterviewAnalysis.tsx:294 | the last n entries of a sequence, all of it when shorter |
| InterviewAnalysis.PushHistory | src/components/InterviewAnalysis.tsx:293-295 | the history after a push holds between 1 and 20 rates and ends with the new one |
| InterviewAnalysis.PushKeepsWindow | src/components/InterviewAnalysis.tsx:294 | pushing onto the last twenty rates gives the last twenty of the longer history |
| InterviewAnalysis.HistoryIsLatestTwenty | src/components/InterviewAnalysis.tsx:293-295 | after any number of pushes the history is the latest twenty rates |
| InterviewAnalysis.ClockRoundTrip | src/components/InterviewAnalysis.tsx:231-235 | the clock text reads back as the whole minutes and the remaining whole seconds of the time |
| InterviewAnalysis.ClockFields | src/components/InterviewAnalysis.tsx:232-233 | the minutes are the whole seconds divided by 60 and the seconds field is their remainder |
| InterviewAnalysis.ScoreTier | src/components/InterviewAnalysis.tsx:237-247 | green exactly from 0.8 up, red exactly below 0.6 |
| InterviewAnalysis.StatusTier | src/components/InterviewAnalysis.tsx:250-264 | green exactly from the threshold up, red exactly below 60% of the threshold |
| InterviewAnalysis.TiersMonotone | src/components/InterviewAnalysis.tsx:237-264 | a higher score never gets a worse colour |
| InterviewAnalysis.DemoWordsNotEmpty | src/components/InterviewAnalysis.tsx:106 | the ten demo words are all non-empty |
| InterviewAnalysis.DemoAlerts | src/components/InterviewAnalysis.tsx:267-290 | figures in the demo generator's ranges can only raise the head-tilt, pace and filler alerts |
| InterviewAnalysis.FillerCount | src/components/InterviewAnalysis.tsx:110-112 | one filler at most per word heard, so the count never exceeds the words |
| InterviewAnalysis.FillerCountCounts | src/components/InterviewAnalysis.tsx:110-112 | the filler count is the number of "um" plus the number of "uh" among the words |
| InterviewAnalysis.AppendWordJoins | src/components/InterviewAnalysis.tsx:108 | appending a word to the joined transcript is joining one more word |
| InterviewAnalysis.JoinNotEmpty | src/components/InterviewAnalysis.tsx:108 | a transcript starting with a non-empty word is not empty |
| InterviewAnalysis.TranscriptIsJoin | src/components/InterviewAnalysis.tsx:104-113 | words appended one at a time read as those words joined by single spaces |
| InterviewAnalysis.LiveAnalysis.constructor | src/components/InterviewAnalysis.tsx:13-58 | the initial state: stopped, zero metrics and clock, no timers, no change shown, no alerts, history, transcript, words heard or stream |
| InterviewAnalysis.LiveAnalysis.StartChangeTracking | src/components/InterviewAnalysis.tsx:194-221 | a snapshot of the current metrics is taken and exactly one tracker interval is live afterwards |
| InterviewAnalysis.LiveAnalysis.StopChangeTracking | src/components/InterviewAnalysis.tsx:223-229 | no tracker interval is live and the snapshot is gone |
| InterviewAnalysis.LiveAnalysis.StopMock | src/components/InterviewAnalysis.tsx:119-125 | neither the demo interval nor the tracker is live and the snapshot is gone |
| InterviewAnalysis.LiveAnalysis.StartMock | src/components/InterviewAnalysis.tsx:71-117 | exactly one demo interval and one tracker are live, with the clock counter at 0 and a fresh snapshot |
| InterviewAnalysis.LiveAnalysis.Start | src/components/InterviewAnalysis.tsx:127-148 | the panel is analysing; the demo starts its timers at once, live mode only issues a camera request for this start and starts nothing else |
| InterviewAnalysis.LiveAnalysis.MediaResolved | src/components/InterviewAnalysis.tsx:139-172 | the corrected settlement: a grant for the current running start attaches the stream and starts tracking, a refusal stops the panel, and a result for an earlier start changes nothing shown |
| InterviewAnalysis.LiveAnalysis.MediaResolvedAsWritten | src/components/InterviewAnalysis.tsx:139-172 | the settlement as written: a refusal stops the panel whatever is running; a grant attaches the new stream, restarts tracking even after Stop, and strands the tracks of any stream it replaces |
| InterviewAnalysis.LiveAnalysis.AlertsEffect | src/components/InterviewAnalysis.tsx:65-69 | while analysing the alerts are those of the current metrics and filler count; when stopped they stay as they were |
| InterviewAnalysis.LiveAnalysis.MockTick | src/components/InterviewAnalysis.tsx:75-114 | one demo tick: the clock advances by 0.1 s, the drawn metrics are shown and their rate pushed on the history, and a drawn word is heard: it extends the transcript and counts if it is a filler, so the transcript and count stay those of the words heard |
| InterviewAnalysis.LiveAnalysis.Readings | src/components/InterviewAnalysis.tsx:76-102 | the clock grows by 0.1 s and is shown, the drawn metrics are shown and their rate pushed on the history, and the lifecycle, alerts, transcript and filler count are untouched |
| InterviewAnalysis.LiveAnalysis.HearDrawn | src/components/InterviewAnalysis.tsx:104-113 | with no word drawn the transcript, filler count and words heard stay; with one drawn it is heard as `HearWord` states |
| InterviewAnalysis.LiveAnalysis.AdvanceClock | src/components/InterviewAnalysis.tsx:76-77 | the demo clock grows by 0.1 s and is shown |
| InterviewAnalysis.LiveAnalysis.Record | src/components/InterviewAnalysis.tsx:101-102 | the new metrics are shown and their speech rate pushed on the history |
| InterviewAnalysis.LiveAnalysis.HearWord | src/components/InterviewAnalysis.tsx:105-113 | the word is appended to the transcript and to the words heard, and the filler count grows by one exactly for "um" or "uh"; the transcript stays `TranscriptAfter` and the count `FillerCount` of the words heard |
| InterviewAnalysis.LiveAnalysis.FrameTick | src/components/InterviewAnalysis.tsx:150-169 | a detected frame replaces the posture and emotion figures and keeps the voice figures; a failed one changes nothing |
| InterviewAnalysis.LiveAnalysis.ChangeTick | src/components/InterviewAnalysis.tsx:198-220 | the corrected tick: the change from the snapshot to the current metrics is shown and the current metrics become the snapshot |
| InterviewAnalysis.LiveAnalysis.ChangeTickAsWritten | src/components/InterviewAnalysis.tsx:196-220 | the tick as written: it compares and stores the metrics the interval closed over when it was created |
| InterviewAnalysis.LiveAnalysis.Stop | src/components/InterviewAnalysis.tsx:175-185 | stopped, every timer cleared, the snapshot gone and the camera released with all its tracks |
| InterviewAnalysis.LiveAnalysis.Halt | src/components/InterviewAnalysis.tsx:175-185 | stopped, every timer cleared, the snapshot gone and the camera released, with the lifecycle invariant kept |
| InterviewAnalysis.StopDuringCameraPromptAsWritten | src/components/InterviewAnalysis.tsx:139-185 | Stop during the camera prompt followed by a grant leaves the panel stopped with the camera's tracks live and the tracker running |
| InterviewAnalysis.StopDuringCameraPrompt | src/components/InterviewAnalysis.tsx:139-185 | the same sequence with the corrected settlement leaves nothing running |
| InterviewAnalysis.DemoChangeTrackingAsWritten | src/components/InterviewAnalysis.tsx:196-220 | in a demo run the tracker's first tick shows no change at all, whatever metrics were drawn |
| InterviewAnalysis.DemoChangeTracking | src/components/InterviewAnalysis.tsx:196-220 | with the corrected tick the first change shown is from the starting metrics to the drawn ones, so back straightness shows its full value |
| LoginPage.ValidEmailIsPattern | src/pages/Login.tsx:25-28 | the computed e-mail check accepts exactly the strings the pattern `^[^\s@]+@[^\s@]+\.[^\s@]+$` matches |
| LoginPage.PasswordIssueOf | src/pages/Login.tsx:31-45 | no issue exactly when the password has six characters and an upper-case letter, a lower-case letter and a digit; otherwise the first rule broken, in the source's order |
| LoginPage.SubmitCheck | src/pages/Login.tsx:52-68 | the first failed check in order: a missing field, then the e-mail shape, then (only when signing up) the password rules; nothing exactly when all pass |
| LoginPage.SignInSkipsPasswordRules | src/pages/Login.tsx:62-68 | signing in with a well-formed address and any non-empty password reaches the auth service |
| LoginPage.LoginForm.constructor | src/pages/Login.tsx:9-14 | sign-in mode, both fields empty, no error, not loading |
| LoginPage.LoginForm.Submit | src/pages/Login.tsx:47-89 | the auth service is called exactly when the checks pass; a failed check shows its error and changes nothing else; a successful sign-up returns to sign-in with both fields cleared; a thrown error shows its message or the fallback; loading ends after a call |
| LoginPage.LoginForm.PasswordReset | src/pages/Login.tsx:91-114 | the reset mail is requested exactly for a non-empty, well-formed address; each refusal shows its own message; a failure shows its message or the fallback; the form fields stay |
| LoginPage.LoginForm.ToggleSignUp | src/pages/Login.tsx:116-120 | the mode flips, the error and the password are cleared, the e-mail address is kept |
| LoginPage.ToggleTwice | src/pages/Login.tsx:116-120 | toggling twice returns to the starting mode, keeps the address and leaves the password cleared |
| OtpStore.OtpNumber | server/services/otpStore.js:4 | the drawn number always has six digits: between 100000 and 999999 |
| OtpStore.GenerateOtp | server/services/otpStore.js:3-5 | the code is six decimal digits whose value lies between 100000 and 999999 |
| OtpStore.Verdict | server/services/otpStore.js:14-17 | a code is accepted only for an address that has an entry |
| OtpStore.AfterVerify | server/services/otpStore.js:18 | an accepted code removes the address's entry; a refused one leaves the store unchanged |
| OtpStore.SingleUse | server/services/otpStore.js:17-18 | a code accepted once is refused at any later time |
| OtpStore.FreshCodeAccepted | server/services/otpStore.js:8-17 | a code is accepted before its five minutes are up, and issuing it changes no other address's entry |
| OtpStore.ExpiredCodeRefused | server/services/otpStore.js:10-17 | a code is refused once its five minutes are up |
| OtpStore.NewCodeReplacesOld | server/services/otpStore.js:11 | a new code for the same address makes the earlier one invalid |
| OtpStore.Store.constructor | server/services/otpStore.js:1 | the store starts empty |
| OtpStore.Store.Generate | server/services/otpStore.js:8-13 | the returned code is `GenerateOtp`'s six digits and the address's entry is replaced by it, expiring five minutes from now |
| OtpStore.Store.Verify | server/services/otpStore.js:14-20 | the answer is `Verdict` on the store before the call, and the store becomes `AfterVerify` |
| ProfilePage.ParseSkills | src/pages/Profile.tsx:119-125 | one skill per comma-separated piece (one more than the commas), each the trimmed piece and free of commas |
| ProfilePage.SkillsRoundTrip | src/pages/Profile.tsx:120 | a non-empty list of skills, each without a comma and without surrounding white space (an empty skill allowed), shown joined by ", " (line 223) reads back as the same list |
| ProfilePage.PiecesSplit | src/pages/Profile.tsx:120 | splitting the shown text at commas gives the shown pieces |
| ProfilePage.PiecesTrim | src/pages/Profile.tsx:120 | trimming the shown pieces gives back the skills |
| ProfilePage.ReadBack | src/pages/Profile.tsx:120 | text that splits into pieces trimming to the skills parses to those skills |
| ProfilePage.LaterPieces | src/pages/Profile.tsx:223 | every later shown piece is comma-free and trims to its skill |
| ProfilePage.ShownAsCommaJoin | src/pages/Profile.tsx:223 | joining by ", " is joining by "," with a space before every later skill |
| ProfilePage.SpacedJoin | src/pages/Profile.tsx:223 | the same identity for any non-empty list |
| ProfilePage.NoSkillsReadsBackAsOne | src/pages/Profile.tsx:120 | an empty skill list, once edited, reads back as one empty skill |
| ProfilePage.FormOf | src/pages/Profile.tsx:60-67 | each of the six form fields is the row's column when present and empty otherwise; a present skill list is kept even when empty |
| ProfilePage.LoadOfSaved | src/pages/Profile.tsx:60-67 | a row holding every field of a form loads as that form |
| ProfilePage.WithField | src/pages/Profile.tsx:109-117 | an edit changes the named field only; the e-mail and skills are untouched |
| ProfilePage.LastEditWins | src/pages/Profile.tsx:109-117 | two edits of one field leave the second value |
| ProfilePage.UpdateOf | src/pages/Profile.tsx:87-94 | the update carries the time of the write as `updated_at`, and its columns, stored with the unchanged e-mail, load back as the form they came from |
| ProfilePage.Page.constructor | src/pages/Profile.tsx:29-39 | an empty form, loading, no error |
| ProfilePage.Page.Load | src/pages/Profile.tsx:45-75 | without a user nothing changes; otherwise loading ends, and the form is the loaded row's or the error is set |
| ProfilePage.Page.InputChange | src/pages/Profile.tsx:109-117 | the form becomes `WithField` of the edited field |
| ProfilePage.Page.SkillsChange | src/pages/Profile.tsx:119-125 | the skills become the parsed text; the rest of the form stays |
| ProfilePage.Page.Submit | src/pages/Profile.tsx:77-107 | an update is sent exactly when signed in, and it is `UpdateOf` the form at the current time; the form stays; the error is cleared on success and set on failure |
| QuestionBank.WeightIssues | src/lib/questions.ts:9-12 | one issue for every rubric weight outside 1..100 and only for those, in rubric order; none exactly when every weight lies in 1..100 |
| QuestionBank.SchemaIssues | src/lib/questions.ts:3-15 | a question passes the schema exactly when its id is a UUID, its text has at least ten characters, its duration lies in 30..300 seconds and every rubric weight in 1..100; each failed rule is reported |
| QuestionBank.SampleIdIsNotUuid | src/lib/questions.ts:4-22 | the first sample question's id contains letters beyond `f`, so it fails the schema's UUID rule |
| QuestionBank.QuestionsByType | src/lib/questions.ts:53-55 | the bank's questions of the category and difficulty, all of them and in bank order |
| QuestionBank.RandomQuestion | src/lib/questions.ts:57-60 | no question (`undefined`) exactly when none matches; otherwise one of the matches |
| QuestionBank.ProductBelow | src/lib/questions.ts:59 | the drawn index always lies within the matches |
| QuestionBank.EveryMatchCanBeDrawn | src/lib/questions.ts:57-60 | every match is the answer for some random draw |
| QuestionGenerator.DomainBlockAsWritten | src/services/questionGenerator.ts:96-98 | the domain lookup as written: it throws exactly for a name every object inherits, and gives questions exactly for a table domain |
| QuestionGenerator.InheritedDomainThrows | src/services/questionGenerator.ts:96-98 | as written, asking for the domain "toString" makes generation throw |
| QuestionGenerator.DomainBlock | src/services/questionGenerator.ts:49-98 | the corrected lookup among the table's own keys: questions exactly for a table domain, each of that domain and never easy |
| QuestionGenerator.DomainBlockAgrees | src/services/questionGenerator.ts:96-98 | the corrected lookup and the code as written agree on every name except the inherited ones |
| QuestionGenerator.GenerateSkillSpecificQuestions | src/services/questionGenerator.ts:119-136 | one medium question per skill, in order, with id `skill-<skill>` and that skill as its only tag |
| QuestionGenerator.GenerateExperienceQuestions | src/services/questionGenerator.ts:138-155 | one medium question per position, in order, with id `exp-<company>` |
| QuestionGenerator.GenerateProjectQuestions | src/services/questionGenerator.ts:157-174 | one medium question per project, in order, with id `proj-<name>` and the project's technologies as tags |
| QuestionGenerator.Generated | src/services/questionGenerator.ts:119-174 | every question the generator makes up itself is of medium difficulty |
| QuestionGenerator.ShuffleArray | src/services/questionGenerator.ts:176-183 | the Fisher–Yates loop, with the random index a free choice, returns a permutation of its input |
| QuestionGenerator.GenerateQuestions | src/services/questionGenerator.ts:89-117 | the result is a permutation of the pool's questions of the requested difficulty, so each has that difficulty (corrected, see Findings) |
| QuestionGenerator.PermutationOfFiltered | src/services/questionGenerator.ts:113-116 | a shuffle of the filtered list holds only questions that pass the filter |
| QuestionGenerator.EasyBaseQuestions | src/services/questionGenerator.ts:21-47 | of the base questions only the first is easy |
| QuestionGenerator.EasyRequestGetsBaseOnly | src/services/questionGenerator.ts:89-117 | an easy request always yields exactly the "Tell me about yourself" question, whatever the skills, positions, projects and domain |
| QuestionGenerator.NoHardBaseQuestion | src/services/questionGenerator.ts:21-47 | no base question is hard |
| QuestionGenerator.HardRequestGetsDomainOnly | src/services/questionGenerator.ts:89-117 | a hard request yields only the domain's hard questions, and none for a domain outside the table |
| RecordingsPage.ItemOf | src/pages/Recordings.tsx:32-37 | path and time are kept; an entry with either an id or a name gets both a non-empty id and name; with neither it has neither |
| RecordingsPage.NameOnlyEntry | src/pages/Recordings.tsx:33-34 | an entry known only by its name is listed under that name as its id too |
| RecordingsPage.EmptyQueryMatches | src/pages/Recordings.tsx:57 | an empty search matches every named item |
| RecordingsPage.QueryCaseIgnored | src/pages/Recordings.tsx:57 | the search ignores the letter case of the query |
| RecordingsPage.NewestFirst | src/pages/Recordings.tsx:58 | the items newest first, the same items as before |
| RecordingsPage.NewestFirstStable | src/pages/Recordings.tsx:58 | items created at the same moment keep their order |
| RecordingsPage.Visible | src/pages/Recordings.tsx:56-59 | the shown list is the matching items newest first; an unnamed item makes it throw |
| RecordingsPage.EmptyQueryShowsAll | src/pages/Recordings.tsx:56-59 | with an empty search box every item is shown, newest first |
| RecordingsPage.UpperCaseVideo | src/pages/Recordings.tsx:139 | an upper-case extension such as `.MP4` still plays as video |
| RecordingsPage.MockIsVideo | src/pages/Recordings.tsx:139 | the mock recording plays as video |
| RecordingsPage.Page.constructor | src/pages/Recordings.tsx:20-23 | no items, loading, no error, empty search |
| RecordingsPage.Page.FetchItems | src/pages/Recordings.tsx:27-50 | the listed entries mapped to items, no list giving none, or the single mock item when listing fails; never an error; loading ends |
| RecordingsPage.Page.SetQuery | src/pages/Recordings.tsx:23-59 | the search text is replaced and nothing else changes |
| RecordingsStore.Scores | src/hooks/useRecordings.ts:67 | a score is counted exactly when some recording's interview has it and it is non-zero |
| RecordingsStore.MegabytesOfTotal | src/hooks/useRecordings.ts:74-83 | the storage estimate is 100 MB per minute of the total duration |
| RecordingsStore.OneDecimal | src/hooks/useRecordings.ts:88-93 | `Math.round(x * 10) / 10`: within 0.05 of x and a whole number of tenths |
| RecordingsStore.TotalHours | src/hooks/useRecordings.ts:74-88 | the shown total is within 0.05 of the recorded seconds in hours |
| RecordingsStore.UsedStorage | src/hooks/useRecordings.ts:80-93 | the shown storage is within 0.05 of the estimated megabytes in gigabytes |
| RecordingsStore.StorageFromDuration | src/hooks/useRecordings.ts:80-93 | the shown storage is the total seconds times 100/61440, rounded to one decimal |
| RecordingsStore.StatsOf | src/hooks/useRecordings.ts:66-91 | the count is the number of recordings, the duration the rounded total hours, and the average and best those of the counted scores |
| RecordingsStore.Find | src/hooks/useRecordings.ts:117-168 | `find`: none exactly when no recording has the id; otherwise the first one that has it |
| RecordingsStore.StoragePath | src/hooks/useRecordings.ts:119-173 | `split('/').pop()`: the part of the URL after its last slash, the whole URL when it has none |
| RecordingsStore.PathFor | src/hooks/useRecordings.ts:116-126 | at most one storage file per requested id, never empty and slash-free |
| RecordingsStore.PathForRequested | src/hooks/useRecordings.ts:117-120 | a file removed for an id is the last URL piece of the first recording with that id |
| RecordingsStore.StoragePaths | src/hooks/useRecordings.ts:116-127 | at most one file per requested id, each non-empty and slash-free |
| RecordingsStore.StoragePathsPrefix | src/hooks/useRecordings.ts:116 | the files for the first ids are a prefix of the files for all of them |
| RecordingsStore.StoragePathsRequested | src/hooks/useRecordings.ts:116-127 | every file removed belongs to a requested recording with a video URL |
| RecordingsStore.UnknownIdsRemoveNothing | src/hooks/useRecordings.ts:116-127 | ids of no listed recording remove no file |
| RecordingsStore.Remaining | src/hooks/useRecordings.ts:139-142 | exactly the recordings not requested, in their order |
| RecordingsStore.DeleteUnknown | src/hooks/useRecordings.ts:139 | deleting ids of no listed recording keeps the list |
| RecordingsStore.DeleteTwice | src/hooks/useRecordings.ts:139 | deleting the same ids again changes nothing |
| RecordingsStore.AfterDelete | src/hooks/useRecordings.ts:142-154 | after a delete the count, average and best are those of the remaining recordings, and the total duration is the old one |
| RecordingsStore.DownloadOf | src/hooks/useRecordings.ts:161-197 | nothing exactly without a user; "Video URL not found" exactly for an unknown id or a recording without URL; a download fetches a non-empty, slash-free file saved as `recording-<id>.mp4` |
| RecordingsStore.DownloadMatchesDelete | src/hooks/useRecordings.ts:116-180 | a recording can be downloaded exactly when deleting it removes a file, and it is the same file |
| RecordingsStore.TrailingSlashInvalid | src/hooks/useRecordings.ts:173-176 | a URL ending in a slash gives "Invalid video URL" |
| RecordingsStore.Recordings.constructor | src/hooks/useRecordings.ts:30-42 | no recordings, zero figures and storage, loading, no error |
| RecordingsStore.Recordings.Fetch | src/hooks/useRecordings.ts:45-106 | without a user nothing changes; otherwise loading ends and either the rows replace the list with their figures, or the load error is set and the figures stay |
| RecordingsStore.Recordings.DeleteRecordings | src/hooks/useRecordings.ts:108-159 | without a user nothing happens; the files removed are a prefix of the requested ones; it throws exactly when a file or the row delete fails, and then the list and figures stay; otherwise the list is the remaining recordings with their recomputed figures |
| RecordingsStore.StoragePathsStep | src/hooks/useRecordings.ts:116-127 | one more id adds its own file, if any, after those of the earlier ids |
| RecordingsStore.StopAt | src/hooks/useRecordings.ts:121-124 | the loop stops at the first file storage refuses, having removed the files before it |
| RecordingsStore.RemoveFiles | src/hooks/useRecordings.ts:116-127 | the loop removes files in order; it fails exactly when some file is refused, stops at that file, and otherwise removes all of them |
| ResumeRoutes.ExtractSkills | server/routes/analyze.js:9-17 | the skills are the keywords the text mentions, in keyword-list order, with repeats dropped |
| ResumeRoutes.MentionedKeywords | server/routes/analyze.js:12-15 | the loop keeps exactly the keywords whose whole-word pattern matches, in list order |
| ResumeRoutes.ExtractedSkills | server/routes/analyze.js:9-17 | the extracted skills are repeat-free, in keyword-list order, each mentioned as a whole word ignoring case, and no mentioned keyword is missed |
| ResumeRoutes.GenerateQuestions | server/routes/analyze.js:20-31 | the loops' questions are the two per skill then the two per repository (the first five), cut to twenty |
| ResumeRoutes.PairsCut | server/routes/analyze.js:20-31 | the cut list has min(n, twice the items) entries and puts each item's two questions at positions 2i and 2i+1, the second list after the first |
| ResumeRoutes.QuestionShape | server/routes/analyze.js:20-31 | exactly min(20, 2·skills + 2·min(5, repositories)) questions; skill i gives questions 2i and 2i+1, and the repositories' questions follow all skill questions |
| ResumeRoutes.Segment | server/routes/analyze.js:44 | the greedy `[^/]+` capture: the longest slash-free prefix, ended by a slash or the end |
| ResumeRoutes.SegmentOf | server/routes/analyze.js:44 | a slash-free name followed by a slash or nothing is captured whole |
| ResumeRoutes.FindMatch | server/routes/analyze.js:44 | the leftmost position from which the GitHub pattern matches, or none when it matches nowhere further on |
| ResumeRoutes.GithubUser | server/routes/analyze.js:44-45 | no user name exactly when the pattern matches nowhere; otherwise a non-empty, slash-free name read after "github.com/" at a match |
| ResumeRoutes.NoMatchInScheme | server/routes/analyze.js:44 | the pattern cannot match inside an `https://` scheme |
| ResumeRoutes.ProfileUser | server/routes/analyze.js:44-45 | for `https://github.com/<user>` with anything after a slash, the user name is `<user>` |
| ResumeRoutes.HostMatches | server/routes/analyze.js:44 | the pattern matches at the host of a `https://github.com/` URL with a non-empty path |
| ResumeRoutes.AnalyzeResumeGithub | server/routes/analyze.js:33-60 | a 400 exactly when either field is missing or empty, before anything is read; a 500 exactly when reading the resume or listing the repositories throws; otherwise the reply holds the extracted skills, the repositories (none without a user name or with a non-OK listing) and the generated questions |
| ServerApp.Upload | server/index.js:23-36 | a 400 exactly when no file was attached, in the route's own reply shape and message; otherwise the stored path and name; the legacy routes answer "Resume uploaded" or "Recording uploaded" with the name; the recording routes at lines 102-113 answer the same way |
| ServerApp.GithubLink | server/index.js:39-44 | the link is refused exactly when the URL is missing or empty |
| ServerApp.ItemOf | server/index.js:122 | a file's entry has its name as id and name, the path under `recordings/`, and its modification time |
| ServerApp.Items | server/index.js:122 | one entry per name, in order |
| ServerApp.MockListing | server/index.js:127-129 | the fallback listing is the single entry `mock1.webm`, with its name as id, its path under `recordings/` and the current time |
| ServerApp.RecordingsDirectory.constructor | server/index.js:118-120 | the directory as found on disk |
| ServerApp.RecordingsDirectory.List | server/index.js:116-131 | no directory lists nothing; a failing read lists the single mock recording; otherwise the entries of the names not starting with a dot, in directory order |
| ServerApp.RecordingsDirectory.Get | server/index.js:133-143 | found exactly for an existing entry whose name does not start with a dot, at its path under `recordings/`; a 404 otherwise (corrected: the id names an entry of the directory, see Findings) |
| ServerApp.RecordingsDirectory.Delete | server/index.js:145-155 | a 404 for a missing file and a 500 when the unlink throws, either way leaving the directory as it was; otherwise the id is an entry of the directory and exactly that file is gone (corrected, see Findings) |
| ServerApp.FilterKeepsDistinct | server/index.js:120-121 | filtering distinct names keeps them distinct |
| ServerApp.SubsequenceDistinct | server/index.js:120-121 | part of a repeat-free list, in order, is repeat-free |
| ServerApp.ListingShape | server/index.js:120-122 | every listed entry is a visible file of the directory with its name as id and its path under `recordings/`, and every visible file is listed |
| ServerApp.DeleteRemovesOnly | server/index.js:149 | after deleting a file its name is gone and every other file is still there, in order |
| ServerApp.Resolve | server/index.js:147 | the path a request names, as the file system resolves it, holds no empty or `.` segment |
| ServerApp.EntryTarget | server/index.js:133-155 | a plain entry name reaches that entry of the recordings directory |
| ServerApp.TraversalSegments | server/index.js:147 | `recordings/../index.js` has the segments `recordings`, `..` and `index.js` |
| ServerApp.ThreeSegments | server/index.js:147 | three names without `/` joined by `/` split back into those three names |
| ServerApp.TraversalTarget | server/index.js:147 | `recordings/../index.js` reaches `index.js` beside the directory |
| ServerApp.DeleteAsWritten | server/index.js:145-155 | as written: 404 when the file the id reaches does not exist, a 500 when the unlink throws, otherwise that file, wherever it is, is gone |
| ServerApp.TraversalDeletesOutside | server/index.js:145-155 | as written, the id `../index.js` deletes the server's `index.js` and leaves the recording in place |
| Uploads.Destination | server/routes/uploads.js:13-16 | `<cwd>/recordings` exactly for the `recording` field, `<cwd>/uploads` for every other field |
| Uploads.ExtName | server/routes/uploads.js:19 | `path.extname`: empty, or a dot and dot-free text that ends the name; empty for a name without a dot or whose only dot leads it; otherwise the text from the last dot on |
| Uploads.BaseName | server/routes/uploads.js:18 | the base name followed by the extension gives back the name |
| Uploads.Sanitize | server/routes/uploads.js:18 | same length; every character outside letters, digits, `-` and `_` becomes `_`, the rest stay |
| Uploads.StoredExt | server/routes/uploads.js:19 | the original's extension, or `.webm` for an extension-less `video/webm` upload, or nothing |
| Uploads.FileName | server/routes/uploads.js:17-21 | the stored name ends in the stored extension, is longer than the base name and the extension together, and before the extension holds only letters, digits, `-` and `_` |
| Uploads.StemAllowed | server/routes/uploads.js:18-20 | a sanitised base, a hyphen and the decimal timestamp hold only letters, digits, `-` and `_` |
| Uploads.StoredNameExtension | server/routes/uploads.js:17-21 | the stored name `<base>-<timestamp><ext>` has exactly the stored extension as its own |
| Uploads.ExtensionAfter | server/routes/uploads.js:19-20 | a dot-free stem followed by an extension has that extension |
| Uploads.LastDotAt | server/routes/uploads.js:19 | the last dot of a name is found where it is |
| Uploads.ResumeUpload | server/routes/uploads.js:36-42 | no file is a 400; a stored name is kept exactly when its extension is `.pdf` in any case, and then its path is reported |
| Uploads.RecordingUpload | server/routes/uploads.js:30-33 | a recording is stored exactly when a file was attached |
| Uploads.ResumeKeptIffPdf | server/routes/uploads.js:17-42 | a resume is kept exactly when its original name's extension is `.pdf`, in any letter case |
| SettingsPage.SettingsIssues | src/pages/Settings.tsx:28-44 | the settings pass exactly when the name has at least two characters, the e-mail is an address, the bio has at most 500 characters and the theme and language are known; each failed rule is reported |
| SettingsPage.SwitchesNotValidated | src/pages/Settings.tsx:28-44 | flipping a switch never changes what the schema reports |
| SettingsPage.ClassNamesReadBack | src/pages/Settings.tsx:51-53 | `classNames` of space-free classes, not all empty, splits back into the non-empty classes |
| SettingsPage.ClassNamesOfEmpties | src/pages/Settings.tsx:51-53 | only empty classes give the empty class string |
| SettingsPage.StoredFalseShownAsOn | src/pages/Settings.tsx:160-162 | as written, a notification switch stored as off loads as on |
| SettingsPage.StoredFlag | src/pages/Settings.tsx:160-162 | the corrected reading: a stored switch shows its stored value, and a missing one shows as on |
| SettingsPage.FlagReadsBack | src/pages/Settings.tsx:160-162 | under the corrected reading a stored switch reads back as itself |
| SettingsPage.ThemeOf | src/pages/Settings.tsx:156 | no stored row means the light theme |
| SettingsPage.LoadedState | src/pages/Settings.tsx:144-165 | the loaded profile fields or empty text; without a row all notifications on and the default preferences; the dark switch exactly for the dark theme; stored notifications shown as stored, the switches agreeing with them; auto-save on (corrected, see Findings) |
| SettingsPage.Toggled | src/pages/Settings.tsx:330-336 | the named switch flips, every other switch and every group stays |
| SettingsPage.ToggleTwice | src/pages/Settings.tsx:330-336 | flipping a switch twice restores the settings |
| SettingsPage.NotificationToggled | src/pages/Settings.tsx:471-479 | a switch of the notification group flips its own notification; the other notifications and every other part of the settings stay |
| SettingsPage.NotificationToggleTwice | src/pages/Settings.tsx:471-479 | flipping a notification twice restores the settings |
| SettingsPage.SoundToggled | src/pages/Settings.tsx:564-573 | the sound-effects switch flips only that preference |
| SettingsPage.SoundToggleTwice | src/pages/Settings.tsx:564-573 | flipping sound effects twice restores the settings |
| SettingsPage.SavedReadsBack | src/pages/Settings.tsx:268-294 | valid settings, saved and loaded back, give the same profile, notifications and preferences, and the dark switch matches the theme |
| SettingsPage.Page.constructor | src/pages/Settings.tsx:57-91 | the initial settings, loading, not saving, no error, the password form empty and closed |
| SettingsPage.Page.Load | src/pages/Settings.tsx:98-178 | without a user or a configured backend: the mock profile, default preferences and no dark class; a failed profile read or a settings error other than "no row" sets the load error and keeps the settings; otherwise the loaded state, with the dark class exactly for the dark theme; loading ends (corrected, see Findings) |
| SettingsPage.Page.Save | src/pages/Settings.tsx:255-317 | without a user nothing happens; invalid settings make no write and show the invalid-data error; otherwise the profile is written, then the settings if that succeeded, any failure shows the save error, and success applies the dark class exactly for the dark theme; saving ends; the settings stay |
| SettingsPage.Page.ThemeChange | src/pages/Settings.tsx:319-328 | the theme becomes the chosen one and the dark class follows it; the profile, password fields, modal and every other setting stay |
| SettingsPage.Page.Toggle | src/pages/Settings.tsx:330-336 | the settings become `Toggled`; the profile, password fields, modal and dark class stay |
| SettingsPage.Page.ToggleNotification | src/pages/Settings.tsx:471-479 | the settings become `NotificationToggled`; the password fields, modal, flags and dark class stay |
| SettingsPage.Page.ToggleSound | src/pages/Settings.tsx:564-573 | the settings become `SoundToggled`; the password fields, modal, flags and dark class stay |
| SettingsPage.Page.PasswordChange | src/pages/Settings.tsx:198-212 | the new password is sent exactly when it equals its confirmation; success closes the form and clears both fields; otherwise the form stays as it was; the loading and saving flags are untouched |
| Validation.LoginIssues | src/lib/validation.ts:3-6 | a login passes exactly for an e-mail address and a password of at least eight characters; each failure is reported, at most two |
| Validation.SignupIssues | src/lib/validation.ts:8-13 | a sign-up passes exactly when the login rules pass and the confirmation equals the password; a mismatch is reported on the confirmation, after every login issue |
| Validation.ProfileIssues | src/lib/validation.ts:15-18 | a profile passes exactly for a name of at least two characters and a bio, when given, of at most 500 |
| Validation.BioLimitInclusive | src/lib/validation.ts:17 | a bio of exactly 500 characters passes, although the message says "less than 500" |
| Validation.SettingsIssues | src/lib/validation.ts:20-32 | settings pass exactly for a known theme, language and resolution; each unknown one is reported |
| Validation.ModeIssues | src/lib/validation.ts:34-49 | a custom mode passes exactly for a name of at least three characters and a known type and difficulty; each failure is reported |
| ScoreStats.Present | src/hooks/useRecordings.ts:67 | `filter(Boolean)` on the scores: every kept value is present and non-zero, a value is kept exactly when it occurs so, and no more values come out than went in |
| ScoreStats.PresentSnoc | src/hooks/useRecordings.ts:67 | one more score comes out last exactly when it is present and non-zero |
| ScoreStats.PresentAppend | src/hooks/useRecordings.ts:67 | the scores of two lists of interviews are those of the first followed by those of the second |
| ScoreStats.PresentCounts | src/hooks/useRecordings.ts:67 | each non-zero score comes out as often as it went in, and zero never |
| ScoreStats.ZeroScoreIgnored | src/hooks/useDashboard.ts:86 | a missing or zero score changes none of the figures, as if the interview had no score |
| ScoreStats.AverageScore | src/hooks/useRecordings.ts:68-70 | no counted score gives an average of 0 |
| ScoreStats.BestScore | src/hooks/useRecordings.ts:71 | the best is at least every counted score and is one of them; 0 without scores |
| ScoreStats.AverageBounded | src/hooks/useDashboard.ts:87-89 | the rounded average of scores between two whole bounds lies between those bounds |
| ScoreStats.AverageAtMostBest | src/hooks/useDashboard.ts:87-90 | the rounded average never exceeds the rounded best score |
| ScoreStats.UnscoredShowZero | src/hooks/useRecordings.ts:67-71 | when no interview has a non-zero score the average and the best both show 0 |
| VideoBot.FormatTime | src/pages/VideoBot.tsx:112-116 | the clock text ends in a colon and two digits, with at least two characters before them, however long the session |
| VideoBot.FiveCharacters | src/pages/VideoBot.tsx:112-116 | below 100 minutes the clock text is five characters with the colon in the middle |
| VideoBot.ClockRoundTrip | src/pages/VideoBot.tsx:112-116 | the clock text reads back as the whole minutes and the remaining seconds |
| VideoBot.ChatAfter | src/pages/VideoBot.tsx:166-175 | a blank message leaves the chat as it was; otherwise the chat gains the message as typed from the user, then an assistant answer |
| VideoBot.ChatAfterAlternates | src/pages/VideoBot.tsx:166-175 | sending keeps the chat alternating between the assistant and the user |
| VideoBot.ExchangeAlternates | src/pages/VideoBot.tsx:169-173 | a user message followed by an answer keeps an alternating chat alternating |
| VideoBot.Session.constructor | src/pages/VideoBot.tsx:50-54 | the clock at 0 and stopped, no typed message, and the assistant's greeting as the only chat entry |
| VideoBot.Session.RecordingChanged | src/pages/VideoBot.tsx:71-79 | the timer runs exactly while recording; the clock is not reset |
| VideoBot.Session.Tick | src/pages/VideoBot.tsx:74-76 | the running clock advances by one second |
| VideoBot.Session.Type | src/pages/VideoBot.tsx:546 | the typed message is replaced; nothing else changes |
| VideoBot.Session.SendMessage | src/pages/VideoBot.tsx:166-175 | the chat becomes `ChatAfter` of the typed message; the box is cleared unless the message was blank; the chat stays alternating |
| VideoBot.TimedSession | src/pages/VideoBot.tsx:71-116 | after n ticks of a started session the clock reads n div 60 minutes and n mod 60 seconds |

## Left out

- Network, database and file I/O are outcome parameters, not modelled calls. This covers Supabase queries and auth, `fetch`/`invoke`, PDF parsing, `fs`, multer's disk storage and the mkdir of the uploads directory.
- EmailService: `sendOtpEmail` is modelled up to the transport it builds (`TransportFor`). The `transporter.verify()` and `sendMail` calls, their failures and the message subject and text are not modelled.
- Model inference (TensorFlow, MediaPipe face mesh and pose detection, `faceMesh.onResults`) is replaced by landmark and keypoint inputs. The detectors' internals are not modelled.
- `saveAnalysis` in src/lib/analysis.ts:149-173 is a database insert with nothing to compute, so it is not modelled.
- Rendering is not modelled: JSX, toasts, console logging, `exportPDF`, `shareReport` and the DOM download link.
- Date and locale formatting are inputs: day names, date labels, `toLocaleString`, file mtimes and `Date.now()`.
- Floating point: figures are exact reals, so NaN, infinities and rounding error are not modelled. `Math.sqrt` is a parameter where needed. The demo metrics' float accumulation is exact.
- Regular expressions that count filler words, transitions and similar patterns are counts or predicates supplied by the caller. Whole-word keyword matching, the year pattern, the e-mail pattern of Login.tsx, file-name sanitising and `extname` are modelled.
- Lower-casing is ASCII only. Unicode case mapping is not modelled.
- JsText.LastPiece models `split(...).pop()` only for the splits the code makes.
- Landmark and keypoint rows are assumed to have the fields the code reads. A missing field is not modelled.
- Where the code relies on the runtime throwing (a lower-cased `undefined`, a spread function), the throw is a `None`/error value. The runtime's own message is not modelled.
- Concurrency between React effects, intervals and promise callbacks is modelled as a sequence of method calls in a chosen order. Interleavings inside one callback are not modelled.
- Dashboard: the unmount check is the `stillMounted` parameter. The feedback query's `order` and `limit(3)` run in the database; the model takes the rows as returned and does not bound their number.
- RecordingsPage: `handleDelete`, the upload form (`window.confirm`, API calls) and `getRecordingUrl` are not modelled.
- CustomModesPage: `editingMode` is an `Option`, so an empty-string id is not treated as falsy.
- Uploads: RecordingUpload takes the reported path as given, and the replace that strips the working directory is not modelled. The size limit is a constant; multer's enforcement of it is not modelled.
- SettingsPage: the writes' `updated_at`, `user_id` and constant `video_settings` columns are not modelled; `Write` carries the profile fields, the theme, the language and the notifications. The notification switches are the three keys of the default group; a stored group with other keys, which `Object.entries` would also list, is not modelled.
- SettingsPage: two-factor setup, the device list and `loadSecurityInfo` are calls into the auth service and are not modelled. The `saving` flag is modelled.
- ProfilePage: the `saving` flag is not modelled. The `updated_at` stamp is the `now` parameter of `UpdateOf`.
- VideoBot: the audio context, the permission prompts, `handleNextQuestion` and the question selection are not modelled.
- server/routes/auth.js is not part of this model. The OTP store and e-mail service it uses are modelled.
- Text length: JavaScript's `.length` counts UTF-16 code units, but `|s|` counts characters. A character outside the Basic Multilingual Plane counts once here and twice in the source. This affects the biography limit of 500, the `min(10)` and `min(2)` checks, `EmailService.Mask` and the regular-expression `.`.
- Entries (AnalyzeFacial.Entries, which TopTwo sorts): the emotions are the seven named scores, in a fixed order. The source sorts `Object.entries` of the request's object, so its key order decides ties between equal scores, and extra keys take part in the sort. Neither is modelled.
- LoadedState (SettingsPage.LoadedState): uses the corrected `StoredFlag` of the Findings table. As written, a stored `false` switch is shown as on.
- Load (SettingsPage.Page.Load): builds on `LoadedState`, so it uses the corrected `StoredFlag` too.
- GenerateQuestions (QuestionGenerator.GenerateQuestions): uses the corrected `DomainBlock` of the Findings table. As written, the domain `"toString"` (or any other `Object.prototype` key) throws a TypeError.
- AnalyzeFacialExpressions (AnalysisService.AnalysisService.AnalyzeFacialExpressions): uses the corrected `FaceConfidence` of the Findings table. As written, any present non-zero visibility, or none at all, gives confidence 0.95; a visibility of 0 is falsy and does not.
- Get (ServerApp.RecordingsDirectory.Get): the id is taken as an entry name of the directory. As written, an id such as `..%2Findex.js` arrives decoded and reaches a file beside the directory; `sendFile` with the working directory as root then serves any file under it. Only the delete route is replayed as written (see Findings).
- DeleteAsWritten (ServerApp.DeleteAsWritten, with ServerApp.Step and ServerApp.Resolve): `..` is resolved on the text of the path. The operating system resolves `recordings/../x` only when every component before the `..` is an existing directory; `recordings` is one, so the counterexample of the Findings table stands.
- RequestBody (AnalyzeInterview.RequestBody): a body that is the JSON `null` parses and then throws a TypeError when `interviewData` is read from it, which gives the 500 reply; `Malformed` stands for that case too.
- Delete (ServerApp.RecordingsDirectory.Delete): uses the corrected lookup of the Findings table. As written, it unlinks whatever file the decoded id reaches (`ServerApp.DeleteAsWritten`).

## Findings

| source | as written | input that shows it | evidently intended | confidence | as-written member | corrected member |
|---|---|---|---|---|---|---|
| src/components/InterviewAnalysis.tsx:194-229 | the change-tracking interval closes over the `metrics` captured when tracking starts, so every tick compares the snapshot with itself | a demo run whose first 5-second tick has back straightness at least 70: the shown change stays 0 | compare the current metrics with the previous snapshot | not executed | InterviewAnalysis.DemoChangeTrackingAsWritten | InterviewAnalysis.DemoChangeTracking |
| src/components/InterviewAnalysis.tsx:139-148 | when the camera request resolves, the stream is attached and the change tracker is started with no check that analysis is still running | Stop pressed while the camera permission prompt is open, then permission granted: analysis is stopped but the tracks are live and the tracker runs | drop the late stream and stop its tracks | not executed | InterviewAnalysis.StopDuringCameraPromptAsWritten | InterviewAnalysis.StopDuringCameraPrompt |
| src/services/analysis.ts:129 | `point.visibility ?? 1 > 0.9` parses as `visibility ?? (1 > 0.9)`, so any present non-zero visibility counts, and absence counts as visible; only a visibility of 0, being falsy, does not | a mesh whose every point has visibility 0.5: face confidence 0.95 instead of 0.7 | `(point.visibility ?? 1) > 0.9` | not executed | AnalysisService.HalfVisibleMesh | AnalysisService.FaceConfidence |
| src/lib/api.ts:39-65 | the client sends `{ transcript, videoData, audioData }`, but supabase/functions/analyze-interview/index.ts:54 reads `interviewData` from the body | any call: the edge function takes its no-data branch, and the client always shows zero metrics and poor grades | send `{ interviewData: { transcript, videoData, audioData } }` | not executed | Api.AsWrittenNeverScores | Api.WrappedIsScored |
| src/services/questionGenerator.ts:96-98 | `domain in domainQuestions` is true for keys inherited from `Object.prototype` | domain `"toString"`: spreading a function into the question list throws a TypeError | look up own keys only | not executed | QuestionGenerator.InheritedDomainThrows | QuestionGenerator.DomainBlockAgrees |
| src/pages/Settings.tsx:160-162 | `stored \|\| true` is true whatever was stored | a stored notification preference `email: false` is shown as on | `stored ?? true` | not executed | SettingsPage.StoredFalseShownAsOn | SettingsPage.FlagReadsBack |
| server/index.js:145-155 | the file deleted is `recordings/${req.params.id}`, and Express decodes the parameter, so an encoded `/` lets `..` segments leave the directory | `DELETE /recordings/..%2Findex.js`: the server's own `index.js` is deleted | delete only an entry of the recordings directory | not executed | ServerApp.TraversalDeletesOutside | ServerApp.RecordingsDirectory.Delete |

The two InterviewAnalysis findings are also modelled on the component's class:
- `LiveAnalysis.ChangeTickAsWritten` and `LiveAnalysis.MediaResolvedAsWritten` model the code as written.
- `LiveAnalysis.ChangeTick` and `LiveAnalysis.MediaResolved` model the corrected code.

The whole model uses the corrected definitions:
- `FaceConfidence`;
- `AnalyzeInterview`, which `WrappedIsScored` is about;
- `DomainBlock`, which `GenerateQuestions` uses;
- `StoredFlag`, which the loaded settings use;
- the entry lookup of `RecordingsDirectory`, which `Get` and `Delete` use.

## Where the model follows the code

- A live session with no alert condition shows no alert: `generateAlerts` leaves the list empty (src/components/InterviewAnalysis.tsx:267-290, `InterviewAnalysis.AlertsEmpty`). The "Great performance! Keep it up" line is not an alert. The component renders it itself when `buildSuggestions()` returns nothing (src/components/InterviewAnalysis.tsx:597-598), and `InterviewAnalysis.LiveFeedback` models that.
- Stopping does not zero the session clock. In src/components/InterviewAnalysis.tsx, stopping leaves `recordingTime` as it was, and a new start restarts the count from 0 on its first tick. In src/pages/VideoBot.tsx the session clock is never reset.
- These discrepancies are stated as lemmas rather than findings, because they read as deliberate or harmless:
  - the sample question's id in src/lib/questions.ts is not a UUID, although the validator demands one (QuestionBank.SampleIdIsNotUuid);
  - the biography limit of 500 characters is inclusive, although its message says "less than" (Validation.BioLimitInclusive);
  - the custom-mode form's checks in src/pages/CustomModes.tsx differ from the mode schema in src/lib/validation.ts (CustomModesPage.SchemasDisagree).
- After a delete in src/hooks/useRecordings.ts, the total duration and storage figures are not recomputed. The model keeps the old values, as the code does.
- server/index.js:46-67 repeats the skill extraction and question generation of server/routes/analyze.js. ResumeRoutes models that logic once, and the rows cite server/routes/analyze.js.
