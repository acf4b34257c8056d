// The client call to the interview-scoring edge function: the camera and microphone
// summaries are turned into the function's feature object, the reply is graded, and any
// failure is rethrown under one message.

module Api {
  import opened JsCommon
  import AI = AnalyzeInterview
  import AnalysisLib

  datatype VideoAnalysisData = VideoAnalysisData(brightness: real, contrast: real, isVisible: bool)

  datatype AudioAnalysisData = AudioAnalysisData(volume: real, clarity: real, confidence: real)

  /**
   * The video features sent for a frame summary: fixed smile, attention, engagement and gaze
   * levels chosen by visibility, contrast and brightness, and a level head looking ahead.
   */
  function VideoFeatures(v: VideoAnalysisData): (r: AI.VideoData)
    ensures r.facialExpressions.smile == (if v.isVisible then 0.8 else 0.0)
    ensures r.facialExpressions.attention == (if v.contrast > 50.0 then 0.9 else 0.5)
    ensures r.facialExpressions.engagement == (if v.brightness > 50.0 then 0.8 else 0.4)
    ensures r.eyeGaze.confidence == (if v.isVisible then 0.9 else 0.0)
    ensures r.headPose == AI.HeadPose(0.0, 0.0, 0.0) && r.eyeGaze.direction == (0.0, 0.0)
  {
    AI.VideoData(
      AI.FacialExpressions(if v.isVisible then 0.8 else 0.0, if v.contrast > 50.0 then 0.9 else 0.5,
                           if v.brightness > 50.0 then 0.8 else 0.4),
      AI.HeadPose(0.0, 0.0, 0.0),
      AI.EyeGaze((0.0, 0.0), if v.isVisible then 0.9 else 0.0))
  }

  /** The audio features: volume and clarity pass through, no pitch track, a fixed 120 words per minute. */
  function AudioFeatures(a: AudioAnalysisData): (r: AI.AudioData)
    ensures r.volume == a.volume && r.clarity == a.clarity
    ensures r.pitch == [] && r.wordsPerMinute == 120.0
  {
    AI.AudioData(a.volume, [], 120.0, a.clarity)
  }

  /** The request body the client builds: transcript, video features and audio features side by side. */
  datatype ClientBody = ClientBody(transcript: string, videoData: AI.VideoData, audioData: AI.AudioData)

  function BuildBody(transcript: string, v: VideoAnalysisData, a: AudioAnalysisData): ClientBody
  {
    ClientBody(transcript, VideoFeatures(v), AudioFeatures(a))
  }

  /**
   * The body as the edge function destructures it. The body's keys are `transcript`,
   * `videoData` and `audioData`; the function reads the key `interviewData`, which is absent.
   */
  function ReceivedAsWritten(b: ClientBody): (r: AI.RequestBody)
    ensures r.Json? && r.interviewData.None?
  {
    AI.Json(None)
  }

  /** The body as the edge function would see it were the client to send `{ interviewData: body }`. */
  function ReceivedWrapped(b: ClientBody): (r: AI.RequestBody)
    ensures r.Json? && AI.Usable(r.interviewData) <==> b.transcript != ""
  {
    AI.Json(Some(AI.InterviewData(Some(b.transcript), Some(b.videoData), Some(b.audioData))))
  }

  /** The three metrics the client keeps, the grades drawn from them, and the passed-on recommendations. */
  datatype AnalysisResponse = AnalysisResponse(confidence: int, clarity: int, engagement: int,
                                               feedback: AnalysisLib.Feedback,
                                               recommendations: Option<seq<string>>)

  /**
   * The client's reading of the invoke outcome. A transport error or a non-2xx reply is an
   * error; so is a reply without a `metrics` object (reading its fields throws). Otherwise the
   * posture grade comes from Confidence, the emotion grade from Engagement and the tone grade
   * from Clarity; `recommendations` is copied, and is undefined (`None`) when the reply has none.
   */
  function Interpret(reply: AI.Reply, transportError: bool): (r: Result<AnalysisResponse, string>)
    ensures r.Err? <==> transportError || AI.Status(reply) != 200 || reply.Preflight?
    ensures r.Err? ==> r.error == AnalysisLib.FailedToAnalyze
    ensures r.Ok? ==> r.value.confidence == reply.metrics.confidence && r.value.clarity == reply.metrics.clarity &&
                      r.value.engagement == reply.metrics.engagement
    ensures r.Ok? ==> r.value.feedback == AnalysisLib.Feedback(AnalysisLib.GradeOf(reply.metrics.confidence as real),
                                                               AnalysisLib.GradeOf(reply.metrics.engagement as real),
                                                               AnalysisLib.GradeOf(reply.metrics.clarity as real))
    ensures r.Ok? ==> (r.value.recommendations.Some? <==> reply.Analysis?)
  {
    if transportError || AI.Status(reply) != 200 || reply.Preflight? then Err(AnalysisLib.FailedToAnalyze)
    else
      var m := reply.metrics;
      Ok(AnalysisResponse(m.confidence, m.clarity, m.engagement,
                          AnalysisLib.Feedback(AnalysisLib.GradeOf(m.confidence as real),
                                               AnalysisLib.GradeOf(m.engagement as real),
                                               AnalysisLib.GradeOf(m.clarity as real)),
                          if reply.Analysis? then Some(reply.recommendations) else None))
  }

  /**
   * `analyzeInterview` as written: the edge function handles the POST it receives, with the
   * pattern counts of the transcript as `counts`, and the client interprets the reply.
   */
  function AnalyzeInterviewAsWritten(transcript: string, v: VideoAnalysisData, a: AudioAnalysisData,
                                     counts: AI.TextCounts, transportError: bool): Result<AnalysisResponse, string>
  {
    Interpret(AI.Handle(Post, ReceivedAsWritten(BuildBody(transcript, v, a)), counts), transportError)
  }

  /**
   * As written, no call is ever scored: whatever the inputs, a successful call reports three
   * zero metrics, three poor grades and no recommendations.
   */
  lemma AsWrittenNeverScores(transcript: string, v: VideoAnalysisData, a: AudioAnalysisData,
                             counts: AI.TextCounts, transportError: bool)
    ensures var r := AnalyzeInterviewAsWritten(transcript, v, a, counts, transportError);
      r.Ok? <==> !transportError
    ensures var r := AnalyzeInterviewAsWritten(transcript, v, a, counts, transportError);
      r.Ok? ==> r.value == AnalysisResponse(0, 0, 0, AnalysisLib.Feedback(AnalysisLib.Poor, AnalysisLib.Poor, AnalysisLib.Poor), None)
  {
    var reply := AI.Handle(Post, ReceivedAsWritten(BuildBody(transcript, v, a)), counts);
    assert reply == AI.NoResponse(AI.ZeroScores, AI.NoResponseMessage);
  }

  /** `analyzeInterview` with the body wrapped under the `interviewData` key the edge function reads. */
  function AnalyzeInterview(transcript: string, v: VideoAnalysisData, a: AudioAnalysisData,
                            counts: AI.TextCounts, transportError: bool): Result<AnalysisResponse, string>
  {
    Interpret(AI.Handle(Post, ReceivedWrapped(BuildBody(transcript, v, a)), counts), transportError)
  }

  /**
   * With the wrapped body, a non-empty transcript is scored: the client reports the edge
   * function's confidence, clarity and engagement for the sent features, grades them, and
   * passes on its recommendations; an empty transcript gets the zero reply.
   */
  lemma WrappedIsScored(transcript: string, v: VideoAnalysisData, a: AudioAnalysisData,
                        counts: AI.TextCounts, transportError: bool)
    requires !transportError
    ensures var r := AnalyzeInterview(transcript, v, a, counts, transportError);
      r.Ok? && (r.value.recommendations.Some? <==> transcript != "")
    ensures var r := AnalyzeInterview(transcript, v, a, counts, transportError);
      transcript != "" ==>
        r.value.confidence == AI.ConfidenceScore(VideoFeatures(v), AudioFeatures(a)) &&
        r.value.clarity == AI.ClarityScore(AudioFeatures(a), counts.fillerWords) &&
        r.value.engagement == AI.EngagementScore(VideoFeatures(v))
  {
    var body := ReceivedWrapped(BuildBody(transcript, v, a));
    var reply := AI.Handle(Post, body, counts);
    if transcript != "" {
      var d := body.interviewData.value;
      assert reply == AI.Analysis(AI.AllScores(transcript, d.videoData.value, d.audioData.value, counts),
                                  AI.Recommendations(AI.AllScores(transcript, d.videoData.value, d.audioData.value, counts)));
    }
  }
}
