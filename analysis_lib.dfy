// The client-side interview analysis: metrics normalised to 0..100, three letter grades
// from averages, and one recommendation per poor grade.

module AnalysisLib {
  import opened JsCommon

  /** The feedback grades `'good'`, `'ok'` and `'poor'`. */
  datatype Grade = Good | Okay | Poor

  /** How good a grade is: 2 for good, 1 for ok, 0 for poor. */
  function Rank(g: Grade): nat
  {
    match g
    case Good => 2
    case Okay => 1
    case Poor => 0
  }

  /** A figure's band: good from 80, ok from 60, poor below. */
  function GradeOf(average: real): (g: Grade)
    ensures g == Good <==> average >= 80.0
    ensures g == Okay <==> 60.0 <= average < 80.0
    ensures g == Poor <==> average < 60.0
  {
    if average >= 80.0 then Good else if average >= 60.0 then Okay else Poor
  }

  /** A higher average never earns a worse grade. */
  lemma GradeMonotone(a: real, b: real)
    requires a <= b
    ensures Rank(GradeOf(a)) <= Rank(GradeOf(b))
  {
  }

  /** `normalizeScore`: `Math.min(100, Math.max(0, score))`. */
  function Normalize(score: real): (r: real)
    ensures 0.0 <= r <= 100.0
    ensures 0.0 <= score <= 100.0 ==> r == score
    ensures score < 0.0 ==> r == 0.0
    ensures score > 100.0 ==> r == 100.0
  {
    Min(100.0, Max(0.0, score))
  }

  lemma NormalizeIdempotent(score: real)
    ensures Normalize(Normalize(score)) == Normalize(score)
  {
  }

  // ------------------------------------------------------------ metrics and grades

  datatype PostureMetrics = PostureMetrics(backStraightness: real, headTilt: real, bodyLean: real, stability: real)

  datatype EmotionMetrics = EmotionMetrics(primaryEmotion: string, confidence: real, stability: real, engagement: real)

  datatype VoiceMetrics = VoiceMetrics(clarity: real, speechRate: real, tone: real, volume: real, confidence: real)

  datatype Metrics = Metrics(posture: PostureMetrics, emotion: EmotionMetrics, voice: VoiceMetrics)

  datatype Feedback = Feedback(posture: Grade, emotion: Grade, tone: Grade)

  predicate Percent(x: real)
  {
    0.0 <= x <= 100.0
  }

  /** Every numeric metric lies in 0..100. */
  predicate InRange(m: Metrics)
  {
    Percent(m.posture.backStraightness) && Percent(m.posture.headTilt) && Percent(m.posture.bodyLean) &&
    Percent(m.posture.stability) && Percent(m.emotion.confidence) && Percent(m.emotion.stability) &&
    Percent(m.emotion.engagement) && Percent(m.voice.clarity) && Percent(m.voice.speechRate) &&
    Percent(m.voice.tone) && Percent(m.voice.volume) && Percent(m.voice.confidence)
  }

  /** `calculatePostureFeedback`: the grade of the mean of the four posture metrics. */
  function PostureFeedback(p: PostureMetrics): (g: Grade)
    ensures p.backStraightness >= 80.0 && p.headTilt >= 80.0 && p.bodyLean >= 80.0 && p.stability >= 80.0 ==> g == Good
    ensures p.backStraightness < 60.0 && p.headTilt < 60.0 && p.bodyLean < 60.0 && p.stability < 60.0 ==> g == Poor
    ensures var mean := (p.backStraightness + p.headTilt + p.bodyLean + p.stability) / 4.0;
      (g == Good <==> mean >= 80.0) && (g == Okay <==> 60.0 <= mean < 80.0) && (g == Poor <==> mean < 60.0)
  {
    GradeOf((p.backStraightness + p.headTilt + p.bodyLean + p.stability) / 4.0)
  }

  /** `calculateEmotionFeedback`: the grade of the mean of confidence, stability and engagement. */
  function EmotionFeedback(e: EmotionMetrics): (g: Grade)
    ensures e.confidence >= 80.0 && e.stability >= 80.0 && e.engagement >= 80.0 ==> g == Good
    ensures e.confidence < 60.0 && e.stability < 60.0 && e.engagement < 60.0 ==> g == Poor
    ensures var mean := (e.confidence + e.stability + e.engagement) / 3.0;
      (g == Good <==> mean >= 80.0) && (g == Okay <==> 60.0 <= mean < 80.0) && (g == Poor <==> mean < 60.0)
  {
    GradeOf((e.confidence + e.stability + e.engagement) / 3.0)
  }

  /** `calculateVoiceFeedback`: the grade of the mean of clarity, tone, volume and confidence. */
  function VoiceFeedback(v: VoiceMetrics): (g: Grade)
    ensures v.clarity >= 80.0 && v.tone >= 80.0 && v.volume >= 80.0 && v.confidence >= 80.0 ==> g == Good
    ensures v.clarity < 60.0 && v.tone < 60.0 && v.volume < 60.0 && v.confidence < 60.0 ==> g == Poor
    ensures var mean := (v.clarity + v.tone + v.volume + v.confidence) / 4.0;
      (g == Good <==> mean >= 80.0) && (g == Okay <==> 60.0 <= mean < 80.0) && (g == Poor <==> mean < 60.0)
  {
    GradeOf((v.clarity + v.tone + v.volume + v.confidence) / 4.0)
  }

  /**
   * A grade is not fixed by any one figure: posture figures 100, 100, 40 and 40 (mean 70) grade ok,
   * although two of them alone would grade good and two poor.
   */
  lemma MixedPostureIsOkay()
    ensures PostureFeedback(PostureMetrics(100.0, 100.0, 40.0, 40.0)) == Okay
  {
  }

  /** Raising one posture figure never lowers the posture grade. */
  lemma PostureMonotone(p: PostureMetrics, x: real)
    requires x >= p.backStraightness
    ensures Rank(PostureFeedback(p)) <= Rank(PostureFeedback(p.(backStraightness := x)))
  {
    GradeMonotone((p.backStraightness + p.headTilt + p.bodyLean + p.stability) / 4.0,
                  (x + p.headTilt + p.bodyLean + p.stability) / 4.0);
  }

  /** The speech rate takes no part in the voice grade. */
  lemma VoiceIgnoresSpeechRate(v: VoiceMetrics, rate: real)
    ensures VoiceFeedback(v.(speechRate := rate)) == VoiceFeedback(v)
  {
  }

  /** The three grades of a set of metrics. */
  function FeedbackOf(m: Metrics): Feedback
  {
    Feedback(PostureFeedback(m.posture), EmotionFeedback(m.emotion), VoiceFeedback(m.voice))
  }

  // ------------------------------------------------------------ recommendations

  /** The three messages `generateRecommendations` can push; `Text` gives each one's wording. */
  datatype Advice = PostureAdvice | EmotionAdvice | ToneAdvice

  function Text(a: Advice): string
  {
    match a
    case PostureAdvice => "Work on maintaining better posture and body language."
    case EmotionAdvice => "Show more engagement and enthusiasm through facial expressions."
    case ToneAdvice => "Focus on speaking more clearly and with better tone."
  }

  /** The position of each message in the table. */
  function Position(a: Advice): nat
  {
    match a
    case PostureAdvice => 0
    case EmotionAdvice => 1
    case ToneAdvice => 2
  }

  /** The advice for a set of grades, in push order. */
  function AdviceFor(f: Feedback): seq<Advice>
  {
    When(f.posture == Poor, PostureAdvice) + When(f.emotion == Poor, EmotionAdvice) + When(f.tone == Poor, ToneAdvice)
  }

  function PoorCount(f: Feedback): nat
  {
    BoolToNat(f.posture == Poor) + BoolToNat(f.emotion == Poor) + BoolToNat(f.tone == Poor)
  }

  /**
   * One message per poor grade: each message appears iff its grade is poor, the messages keep
   * table order without repeats, and there are as many as poor grades, so at most three.
   */
  lemma AdviceForPoorGrades(f: Feedback)
    ensures |AdviceFor(f)| == PoorCount(f) <= 3
    ensures PostureAdvice in AdviceFor(f) <==> f.posture == Poor
    ensures EmotionAdvice in AdviceFor(f) <==> f.emotion == Poor
    ensures ToneAdvice in AdviceFor(f) <==> f.tone == Poor
    ensures forall i, j :: 0 <= i < j < |AdviceFor(f)| ==> Position(AdviceFor(f)[i]) < Position(AdviceFor(f)[j])
  {
    var a, b, c := When(f.posture == Poor, PostureAdvice), When(f.emotion == Poor, EmotionAdvice),
                   When(f.tone == Poor, ToneAdvice);
    assert AdviceFor(f) == a + b + c;
  }

  /** `generateRecommendations`; the metrics argument is not read. */
  method GenerateRecommendations(metrics: Metrics, feedback: Feedback) returns (advice: seq<Advice>)
    ensures advice == AdviceFor(feedback)
  {
    advice := [];
    if feedback.posture == Poor {
      advice := advice + [PostureAdvice];
    }
    if feedback.emotion == Poor {
      advice := advice + [EmotionAdvice];
    }
    if feedback.tone == Poor {
      advice := advice + [ToneAdvice];
    }
  }

  // ------------------------------------------------------------ analyzeInterview

  datatype PoseData = PoseData(backStraightnessScore: real, headTiltAngle: real, bodyLeanScore: real, stabilityIndex: real)

  datatype FacialData = FacialData(primaryEmotion: string, emotionConfidence: real, emotionalStability: real,
                                   engagementLevel: real)

  datatype VoiceData = VoiceData(clarityScore: real, speechRate: real, tonePolarity: real, volumeConsistency: real,
                                 confidenceScore: real)

  /** The input object; a missing part makes the property reads throw. */
  datatype InterviewData = InterviewData(transcript: string, poseData: Option<PoseData>,
                                         facialData: Option<FacialData>, voiceData: Option<VoiceData>)

  datatype AnalysisResponse = AnalysisResponse(metrics: Metrics, feedback: Feedback, recommendations: seq<Advice>)

  const FailedToAnalyze := "Failed to analyze interview"

  /** The head-tilt metric: 100 for an upright head, one point less per degree of tilt either way. */
  function HeadTilt(angle: real): (r: real)
    ensures Percent(r)
    ensures r == 100.0 <==> angle == 0.0
    ensures Abs(angle) >= 100.0 ==> r == 0.0
    ensures Abs(angle) <= 100.0 ==> r == 100.0 - Abs(angle)
  {
    Normalize(100.0 - Abs(angle))
  }

  /** The emotion confidence, a 0..1 fraction, as a percentage. */
  function EmotionConfidence(fraction: real): (r: real)
    ensures Percent(r)
    ensures 0.0 <= fraction <= 1.0 ==> r == fraction * 100.0
  {
    Normalize(fraction * 100.0)
  }

  /**
   * The normalised metrics of the three inputs: every figure is its input clamped to 0..100,
   * except the head tilt (100 less the tilt) and the emotion confidence (a fraction as a percentage).
   */
  function Normalized(p: PoseData, f: FacialData, v: VoiceData): (m: Metrics)
    ensures InRange(m)
    ensures m.emotion.primaryEmotion == f.primaryEmotion
    ensures m.posture.headTilt == HeadTilt(p.headTiltAngle)
    ensures m.emotion.confidence == EmotionConfidence(f.emotionConfidence)
    ensures m.posture.backStraightness == Normalize(p.backStraightnessScore) && m.posture.bodyLean == Normalize(p.bodyLeanScore)
    ensures m.posture.stability == Normalize(p.stabilityIndex) && m.emotion.stability == Normalize(f.emotionalStability)
    ensures m.emotion.engagement == Normalize(f.engagementLevel)
    ensures m.voice == VoiceMetrics(Normalize(v.clarityScore), Normalize(v.speechRate), Normalize(v.tonePolarity),
                                    Normalize(v.volumeConsistency), Normalize(v.confidenceScore))
  {
    Metrics(
      PostureMetrics(Normalize(p.backStraightnessScore), HeadTilt(p.headTiltAngle),
                     Normalize(p.bodyLeanScore), Normalize(p.stabilityIndex)),
      EmotionMetrics(f.primaryEmotion, EmotionConfidence(f.emotionConfidence),
                     Normalize(f.emotionalStability), Normalize(f.engagementLevel)),
      VoiceMetrics(Normalize(v.clarityScore), Normalize(v.speechRate), Normalize(v.tonePolarity),
                   Normalize(v.volumeConsistency), Normalize(v.confidenceScore)))
  }

  /** Inputs already in range, with a tilt of at most 100 degrees and a 0..1 confidence, pass through unchanged. */
  lemma NormalizedInRange(p: PoseData, f: FacialData, v: VoiceData)
    requires Percent(p.backStraightnessScore) && Percent(p.bodyLeanScore) && Percent(p.stabilityIndex)
    requires Abs(p.headTiltAngle) <= 100.0
    requires Percent(f.emotionalStability) && Percent(f.engagementLevel) && 0.0 <= f.emotionConfidence <= 1.0
    requires Percent(v.clarityScore) && Percent(v.speechRate) && Percent(v.tonePolarity)
    requires Percent(v.volumeConsistency) && Percent(v.confidenceScore)
    ensures Normalized(p, f, v) == Metrics(
      PostureMetrics(p.backStraightnessScore, 100.0 - Abs(p.headTiltAngle), p.bodyLeanScore, p.stabilityIndex),
      EmotionMetrics(f.primaryEmotion, f.emotionConfidence * 100.0, f.emotionalStability, f.engagementLevel),
      VoiceMetrics(v.clarityScore, v.speechRate, v.tonePolarity, v.volumeConsistency, v.confidenceScore))
  {
  }

  /**
   * `analyzeInterview`: normalise, grade, recommend. A missing part throws inside the `try`,
   * which is rethrown as "Failed to analyze interview"; the transcript is not read.
   */
  function AnalyzeInterview(transcript: string, data: InterviewData): (r: Result<AnalysisResponse, string>)
    ensures r.Err? <==> data.poseData.None? || data.facialData.None? || data.voiceData.None?
    ensures r.Err? ==> r.error == FailedToAnalyze
    ensures r.Ok? ==> r.value.metrics == Normalized(data.poseData.value, data.facialData.value, data.voiceData.value)
    ensures r.Ok? ==> InRange(r.value.metrics) && r.value.feedback == FeedbackOf(r.value.metrics)
    ensures r.Ok? ==> r.value.recommendations == AdviceFor(r.value.feedback) && |r.value.recommendations| <= 3
  {
    if data.poseData.None? || data.facialData.None? || data.voiceData.None? then Err(FailedToAnalyze)
    else
      var metrics := Normalized(data.poseData.value, data.facialData.value, data.voiceData.value);
      var feedback := FeedbackOf(metrics);
      AdviceForPoorGrades(feedback);
      Ok(AnalysisResponse(metrics, feedback, AdviceFor(feedback)))
  }

  /**
   * A complete interview whose figures are already in range is reported as given (head tilt as
   * 100 less the tilt, confidence as a percentage), graded, and advised once per poor grade.
   */
  lemma InRangeInterviewReported(transcript: string, p: PoseData, f: FacialData, v: VoiceData)
    requires Percent(p.backStraightnessScore) && Percent(p.bodyLeanScore) && Percent(p.stabilityIndex)
    requires Abs(p.headTiltAngle) <= 100.0
    requires Percent(f.emotionalStability) && Percent(f.engagementLevel) && 0.0 <= f.emotionConfidence <= 1.0
    requires Percent(v.clarityScore) && Percent(v.speechRate) && Percent(v.tonePolarity)
    requires Percent(v.volumeConsistency) && Percent(v.confidenceScore)
    ensures var r := AnalyzeInterview(transcript, InterviewData(transcript, Some(p), Some(f), Some(v)));
      r.Ok? &&
      r.value.metrics.posture == PostureMetrics(p.backStraightnessScore, 100.0 - Abs(p.headTiltAngle), p.bodyLeanScore, p.stabilityIndex) &&
      r.value.metrics.voice.clarity == v.clarityScore &&
      r.value.feedback.tone == GradeOf((v.clarityScore + v.tonePolarity + v.volumeConsistency + v.confidenceScore) / 4.0) &&
      |r.value.recommendations| == PoorCount(r.value.feedback)
  {
    NormalizedInRange(p, f, v);
    AdviceForPoorGrades(FeedbackOf(Normalized(p, f, v)));
  }
}
