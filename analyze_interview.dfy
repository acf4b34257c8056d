/**
 * The interview-scoring edge function: seven 0..100 scores computed from one answer's
 * transcript, video features and audio features, and one fixed recommendation for every
 * score below 70.
 *
 * The two regular expressions the function counts with (filler words and transition
 * words, both whole-word and case-insensitive) are given as counts.
 */
module AnalyzeInterview {

  import opened JsCommon
  import opened JsText
  import opened Seqs

  datatype FacialExpressions = FacialExpressions(smile: real, attention: real, engagement: real)

  datatype HeadPose = HeadPose(pitch: real, yaw: real, roll: real)

  datatype EyeGaze = EyeGaze(direction: (real, real), confidence: real)

  datatype VideoData = VideoData(facialExpressions: FacialExpressions, headPose: HeadPose, eyeGaze: EyeGaze)

  datatype AudioData = AudioData(volume: real, pitch: seq<real>, wordsPerMinute: real, clarity: real)

  /** The `interviewData` object of the request; any of its three parts may be missing. */
  datatype InterviewData = InterviewData(transcript: Option<string>, videoData: Option<VideoData>, audioData: Option<AudioData>)

  /** Matches of the filler-word and the transition-word expressions in the transcript. */
  datatype TextCounts = TextCounts(fillerWords: nat, transitionWords: nat)

  datatype Scores = Scores(confidence: int, clarity: int, eyeContact: int, engagement: int,
                           speechRate: int, responseQuality: int, answerStructure: int)

  /** A score (or a 0..1 feature scaled by 100) inside the 0..100 band. */
  predicate Percent(x: int)
  {
    0 <= x <= 100
  }

  predicate Unit(x: real)
  {
    0.0 <= x <= 1.0
  }

  // ---------------------------------------------------------------- scorers

  /** Facial engagement 40%, head roll 30%, voice volume 30%. */
  function ConfidenceScore(v: VideoData, a: AudioData): (r: int)
    ensures Unit(v.facialExpressions.engagement) && Abs(v.headPose.roll) <= 45.0 && Unit(a.volume) ==> Percent(r)
    ensures v.facialExpressions.engagement == 1.0 && v.headPose.roll == 0.0 && a.volume == 1.0 ==> r == 100
    ensures v.facialExpressions.engagement == 0.0 && Abs(v.headPose.roll) == 45.0 && a.volume == 0.0 ==> r == 0
  {
    var expression := v.facialExpressions.engagement * 100.0;
    var posture := (1.0 - Abs(v.headPose.roll) / 45.0) * 100.0;
    var voice := a.volume * 100.0;
    Round(expression * 0.4 + posture * 0.3 + voice * 0.3)
  }

  /** Five points per filler word, at most thirty. */
  function FillerPenalty(fillers: nat): (p: real)
    ensures 0.0 <= p <= 30.0
    ensures fillers <= 6 ==> p == 5.0 * fillers as real
    ensures fillers >= 6 ==> p == 30.0
  {
    Min(30.0, fillers as real * 5.0)
  }

  /** Audio clarity on 0..100 less the filler penalty, never below 0. */
  function ClarityScore(a: AudioData, fillers: nat): (r: int)
    ensures r >= 0
    ensures a.clarity <= 1.0 ==> r <= 100
    ensures fillers == 0 && a.clarity >= 0.0 ==> r == Round(a.clarity * 100.0)
    ensures a.clarity * 100.0 <= FillerPenalty(fillers) ==> r == 0
  {
    Round(Max(0.0, a.clarity * 100.0 - FillerPenalty(fillers)))
  }

  /** Horizontal gaze angle 70%, gaze confidence 30%. */
  function EyeContactScore(v: VideoData): (r: int)
    ensures Abs(v.eyeGaze.direction.0) <= 45.0 && Unit(v.eyeGaze.confidence) ==> Percent(r)
    ensures v.eyeGaze.direction.0 == 0.0 && v.eyeGaze.confidence == 1.0 ==> r == 100
  {
    var gaze := (1.0 - Abs(v.eyeGaze.direction.0) / 45.0) * 100.0;
    var confidence := v.eyeGaze.confidence * 100.0;
    Round(gaze * 0.7 + confidence * 0.3)
  }

  /** Facial engagement 40%, attention 40%, smile 20%. */
  function EngagementScore(v: VideoData): (r: int)
    ensures Unit(v.facialExpressions.engagement) && Unit(v.facialExpressions.attention) && Unit(v.facialExpressions.smile) ==> Percent(r)
    ensures v.facialExpressions == FacialExpressions(1.0, 1.0, 1.0) ==> r == 100
    ensures v.facialExpressions == FacialExpressions(0.0, 0.0, 0.0) ==> r == 0
  {
    var f := v.facialExpressions;
    Round(f.engagement * 100.0 * 0.4 + f.attention * 100.0 * 0.4 + f.smile * 100.0 * 0.2)
  }

  /** Full marks inside 110..150 words per minute; proportional below, half a point per word above. */
  function SpeechRateScore(wpm: real): (r: int)
    ensures 110.0 <= wpm <= 150.0 ==> r == 100
    ensures wpm < 110.0 ==> r == Round(wpm / 110.0 * 100.0)
    ensures wpm > 150.0 ==> Percent(r)
    ensures wpm >= 350.0 ==> r == 0
    ensures wpm >= 0.0 ==> Percent(r)
  {
    if wpm < 110.0 then Round(wpm / 110.0 * 100.0)
    else if wpm > 150.0 then Round(Max(0.0, 100.0 - (wpm - 150.0) / 2.0))
    else 100
  }

  // ---------------------------------------------------- sentence splitting

  /** The characters of the class `[.!?]`. */
  predicate IsStop(c: char)
  {
    c == '.' || c == '!' || c == '?'
  }

  predicate NoStop(s: string)
  {
    forall i :: 0 <= i < |s| ==> !IsStop(s[i])
  }

  /** `s` without its leading run of sentence terminators. */
  function SkipStops(s: string): (r: string)
    ensures |r| <= |s| && r == s[|s| - |r|..]
    ensures r != [] ==> !IsStop(r[0])
    ensures s != [] && IsStop(s[0]) ==> |r| < |s|
    ensures s == [] || !IsStop(s[0]) ==> r == s
  {
    if s != [] && IsStop(s[0]) then SkipStops(s[1..]) else s
  }

  /**
   * `s.split(/[.!?]+/)`: the pieces between maximal runs of terminators. A leading or a
   * trailing run gives an empty first or last piece; there is always at least one piece.
   */
  function SplitRuns(s: string): (r: seq<string>)
    ensures |r| >= 1
    ensures forall k :: 0 <= k < |r| ==> NoStop(r[k])
    decreases |s|
  {
    if s == [] then [""]
    else if IsStop(s[0]) then [""] + SplitRuns(SkipStops(s))
    else
      var rest := SplitRuns(s[1..]);
      [[s[0]] + rest[0]] + rest[1..]
  }

  /** Text with no terminator is one sentence. */
  lemma {:induction false} SplitRunsWithout(s: string)
    requires NoStop(s)
    ensures SplitRuns(s) == [s]
  {
    if s != [] {
      SplitRunsWithout(s[1..]);
      assert [s[0]] + s[1..] == s;
    }
  }

  lemma ExactAverage(words: nat, sentences: nat)
    requires sentences >= 1 && words == 15 * sentences
    ensures words as real / sentences as real == 15.0
  {
    assert words as real == 15.0 * sentences as real;
  }

  /** A terminator after a terminator-free piece splits off exactly that piece. */
  lemma {:induction false} SplitRunsAtStop(x: string, y: string)
    requires NoStop(x) && (y == [] || !IsStop(y[0]))
    ensures SplitRuns(x + "." + y) == [x] + SplitRuns(y)
  {
    if x == [] {
      assert x + "." + y == "." + y;
      SplitRunsLeadingStop(y);
    } else {
      assert (x + "." + y)[1..] == x[1..] + "." + y;
      SplitRunsAtStop(x[1..], y);
      SplitRunsCons(x[0], x[1..] + "." + y);
      assert [x[0]] + (x[1..] + "." + y) == x + "." + y;
      assert [x[0]] + x[1..] == x;
    }
  }

  lemma SplitRunsLeadingStop(y: string)
    requires y == [] || !IsStop(y[0])
    ensures SplitRuns("." + y) == [""] + SplitRuns(y)
  {
    assert ("." + y)[1..] == y;
  }

  /** A character that is not a terminator joins the first piece. */
  lemma SplitRunsCons(c: char, t: string)
    requires !IsStop(c)
    ensures SplitRuns([c] + t) == [[c] + SplitRuns(t)[0]] + SplitRuns(t)[1..]
  {
    assert ([c] + t)[1..] == t;
  }

  /**
   * Sentences joined with "." split back into the same sentences, provided no
   * sentence holds a terminator and no inner sentence is empty (".." is one separator).
   */
  lemma {:induction false} SplitRunsJoin(parts: seq<string>)
    requires |parts| >= 1
    requires forall k :: 0 <= k < |parts| ==> NoStop(parts[k])
    requires forall k :: 0 < k < |parts| - 1 ==> parts[k] != []
    ensures SplitRuns(Join(parts, ".")) == parts
  {
    if |parts| == 1 {
      SplitRunsWithout(parts[0]);
    } else {
      var tail := parts[1..];
      SplitRunsJoin(tail);
      var y := Join(tail, ".");
      assert y == [] || !IsStop(y[0]) by {
        if |tail| > 1 {
          assert tail[0] != [];
          assert y == tail[0] + "." + Join(tail[1..], ".");
          assert y[0] == tail[0][0];
        }
      }
      SplitRunsAtStop(parts[0], y);
      assert [parts[0]] + tail == parts;
    }
  }

  /** `pieces.filter(s => s.trim().length > 0)`. */
  function NonBlank(pieces: seq<string>): (r: seq<string>)
    ensures |r| <= |pieces|
    ensures forall k :: 0 <= k < |r| ==> Trim(r[k]) != [] && r[k] in pieces
    ensures forall k :: 0 <= k < |pieces| && Trim(pieces[k]) != [] ==> pieces[k] in r
  {
    Filter(pieces, IsNonBlank)
  }

  predicate IsNonBlank(piece: string)
  {
    Trim(piece) != []
  }

  /** The sentences the structure score looks at. */
  function Sentences(transcript: string): seq<string>
  {
    NonBlank(SplitRuns(transcript))
  }

  // ------------------------------------------------ transcript-based scores

  function WordCount(transcript: string): (n: nat)
    ensures n >= 1
  {
    |Split(transcript, ' ')|
  }

  /**
   * Fewer than 20 words score five points a word; otherwise two points are lost per word of
   * distance between the mean sentence length and 15, never below 0.
   */
  function ResponseQualityScore(transcript: string): (r: int)
    ensures Percent(r)
    ensures WordCount(transcript) < 20 ==> r == 5 * WordCount(transcript) && r < 100
    ensures WordCount(transcript) >= 20 && WordCount(transcript) == 15 * |SplitRuns(transcript)| ==> r == 100
  {
    var words := WordCount(transcript);
    var sentences := |SplitRuns(transcript)|;
    if words < 20 then
      RoundOfInt(5 * words);
      Round(words as real / 20.0 * 100.0)
    else
      var average := words as real / sentences as real;
      if words == 15 * sentences then
        ExactAverage(words, sentences);
        RoundOfInt(100);
        Round(Max(0.0, 100.0 - Abs(average - 15.0) * 2.0))
      else
        Round(Max(0.0, 100.0 - Abs(average - 15.0) * 2.0))
  }

  /** Thirty points each for a long first and a long last sentence, ten per transition word up to forty. */
  function AnswerStructureScore(transcript: string, transitions: nat): (r: int)
    ensures Percent(r)
    ensures |Sentences(transcript)| < 2 ==> r == 0 || r == 50
    ensures |Sentences(transcript)| == 0 ==> r == 0
    ensures |Sentences(transcript)| >= 2 ==>
      r == (if |Sentences(transcript)[0]| > 20 then 30 else 0)
         + (if |Sentences(transcript)[|Sentences(transcript)| - 1]| > 20 then 30 else 0)
         + (if transitions >= 4 then 40 else 10 * transitions)
  {
    var sentences := Sentences(transcript);
    if |sentences| < 2 then
      RoundOfInt(50 * |sentences|);
      Round(|sentences| as real / 2.0 * 100.0)
    else
      var intro := if |sentences[0]| > 20 then 30 else 0;
      var conclusion := if |sentences[|sentences| - 1]| > 20 then 30 else 0;
      var flow := Min(40.0, transitions as real * 10.0);
      var total := intro as real + conclusion as real + flow;
      assert flow == (if transitions >= 4 then 40 else 10 * transitions) as real;
      RoundOfInt(intro + conclusion + (if transitions >= 4 then 40 else 10 * transitions));
      Round(total)
  }

  /** A non-blank answer with no terminator is one sentence and scores 50 for structure. */
  lemma OneSentenceStructure(transcript: string, transitions: nat)
    requires NoStop(transcript) && Trim(transcript) != []
    ensures Sentences(transcript) == [transcript]
    ensures AnswerStructureScore(transcript, transitions) == 50
  {
    SplitRunsWithout(transcript);
    assert NonBlank([transcript]) == [transcript] by {
      assert [transcript][..0] == [];
    }
  }

  // ------------------------------------------------------- recommendations

  const RecConfidence := "Work on maintaining a more confident posture and tone of voice. Keep your head up and speak with conviction."
  const RecClarity := "Focus on speaking more clearly and reducing filler words. Take brief pauses instead of using words like 'um' or 'uh'."
  const RecEyeContact := "Try to maintain more consistent eye contact with the camera. This helps establish a stronger connection with your interviewer."
  const RecEngagement := "Show more engagement through facial expressions and vocal energy. Use natural hand gestures and vary your tone to maintain interest."
  const RecSpeechRate := "Adjust your speaking pace to be more natural. Aim for 120-140 words per minute for optimal clarity and engagement."
  const RecResponseQuality := "Provide more detailed and relevant responses. Include specific examples and ensure your answers directly address the questions."
  const RecAnswerStructure := "Structure your answers more effectively using the STAR method: Situation, Task, Action, and Result. Include a clear introduction and conclusion."

  /** One message per score below 70, in the order the scores are listed. */
  function Recommendations(s: Scores): seq<string>
  {
    When(s.confidence < 70, RecConfidence) +
    When(s.clarity < 70, RecClarity) +
    When(s.eyeContact < 70, RecEyeContact) +
    When(s.engagement < 70, RecEngagement) +
    When(s.speechRate < 70, RecSpeechRate) +
    When(s.responseQuality < 70, RecResponseQuality) +
    When(s.answerStructure < 70, RecAnswerStructure)
  }

  /** How many of the seven scores are below 70. */
  function LowScores(s: Scores): (n: nat)
    ensures n <= 7
  {
    BoolToNat(s.confidence < 70) + BoolToNat(s.clarity < 70) + BoolToNat(s.eyeContact < 70) +
    BoolToNat(s.engagement < 70) + BoolToNat(s.speechRate < 70) + BoolToNat(s.responseQuality < 70) +
    BoolToNat(s.answerStructure < 70)
  }

  /** The list is built by one guarded `push` per score. */
  method GenerateRecommendations(s: Scores) returns (recs: seq<string>)
    ensures recs == Recommendations(s)
  {
    recs := PushIf([], s.confidence < 70, RecConfidence);
    assert recs == When(s.confidence < 70, RecConfidence);
    recs := PushIf(recs, s.clarity < 70, RecClarity);
    recs := PushIf(recs, s.eyeContact < 70, RecEyeContact);
    recs := PushIf(recs, s.engagement < 70, RecEngagement);
    recs := PushIf(recs, s.speechRate < 70, RecSpeechRate);
    recs := PushIf(recs, s.responseQuality < 70, RecResponseQuality);
    recs := PushIf(recs, s.answerStructure < 70, RecAnswerStructure);
  }

  /** Exactly one message per low score, so never more than seven. */
  lemma RecommendationCount(s: Scores)
    ensures |Recommendations(s)| == LowScores(s) <= 7
  {
  }

  /** The seven messages in score order, and which of the seven scores are below 70. */
  const Messages: seq<string> := [RecConfidence, RecClarity, RecEyeContact, RecEngagement,
                                  RecSpeechRate, RecResponseQuality, RecAnswerStructure]

  function LowFlags(s: Scores): (f: seq<bool>)
    ensures |f| == 7
  {
    [s.confidence < 70, s.clarity < 70, s.eyeContact < 70, s.engagement < 70,
     s.speechRate < 70, s.responseQuality < 70, s.answerStructure < 70]
  }

  /** The items whose flag is set, in their original order. */
  function Select<T>(items: seq<T>, flags: seq<bool>): (r: seq<T>)
    requires |flags| == |items|
    ensures |r| <= |items|
  {
    if items == [] then []
    else
      var n := |items| - 1;
      Select(items[..n], flags[..n]) + When(flags[n], items[n])
  }

  /** An item is selected when its flag is set, and only selected items with a set flag appear. */
  lemma {:induction false} SelectContains<T>(items: seq<T>, flags: seq<bool>)
    requires |flags| == |items|
    ensures forall i :: 0 <= i < |items| && flags[i] ==> items[i] in Select(items, flags)
    ensures forall x :: x in Select(items, flags) ==> exists i :: 0 <= i < |items| && flags[i] && items[i] == x
  {
    if items != [] {
      var n := |items| - 1;
      SelectContains(items[..n], flags[..n]);
      var r := Select(items, flags);
      assert r == Select(items[..n], flags[..n]) + When(flags[n], items[n]);
      forall x | x in r
        ensures exists i :: 0 <= i < |items| && flags[i] && items[i] == x
      {
        if x !in Select(items[..n], flags[..n]) {
          assert flags[n] && items[n] == x;
        } else {
          var i :| 0 <= i < n && flags[..n][i] && items[..n][i] == x;
          assert flags[i] && items[i] == x;
        }
      }
      forall i | 0 <= i < |items| && flags[i]
        ensures items[i] in r
      {
        if i < n {
          assert items[..n][i] == items[i] && flags[..n][i] == flags[i];
        }
      }
    }
  }

  /** Selecting from a prefix one item longer adds that item's guarded push. */
  lemma SelectStep<T>(m: seq<T>, f: seq<bool>, n: nat)
    requires |m| == |f| && n < |m|
    ensures Select(m[..n + 1], f[..n + 1]) == Select(m[..n], f[..n]) + When(f[n], m[n])
  {
    assert m[..n + 1][..n] == m[..n] && f[..n + 1][..n] == f[..n];
  }

  /** The first four rules select the first four guarded items. */
  lemma SelectFour<T>(m: seq<T>, f: seq<bool>)
    requires |m| == |f| >= 4
    ensures Select(m[..4], f[..4]) == When(f[0], m[0]) + When(f[1], m[1]) + When(f[2], m[2]) + When(f[3], m[3])
  {
    assert m[..0] == [] && f[..0] == [];
    SelectStep(m, f, 0);
    SelectStep(m, f, 1);
    SelectStep(m, f, 2);
    SelectStep(m, f, 3);
  }

  /** Seven rules select seven guarded items. */
  lemma SelectSeven<T>(m: seq<T>, f: seq<bool>)
    requires |m| == 7 && |f| == 7
    ensures Select(m, f) == When(f[0], m[0]) + When(f[1], m[1]) + When(f[2], m[2]) + When(f[3], m[3]) +
                            When(f[4], m[4]) + When(f[5], m[5]) + When(f[6], m[6])
  {
    SelectFour(m, f);
    SelectStep(m, f, 4);
    SelectStep(m, f, 5);
    SelectStep(m, f, 6);
    assert m[..7] == m && f[..7] == f;
  }

  /** The list is the table of messages restricted to the low scores, in table order. */
  lemma RecommendationsSelect(s: Scores)
    ensures Recommendations(s) == Select(Messages, LowFlags(s))
    ensures forall i :: 0 <= i < 7 && LowFlags(s)[i] ==> Messages[i] in Recommendations(s)
    ensures forall x :: x in Recommendations(s) ==> exists i :: 0 <= i < 7 && LowFlags(s)[i] && Messages[i] == x
  {
    SelectSeven(Messages, LowFlags(s));
    SelectContains(Messages, LowFlags(s));
  }

  // ---------------------------------------------------------------- handler

  const NoResponseMessage := "No clear response detected."

  const ZeroScores := Scores(0, 0, 0, 0, 0, 0, 0)

  /** The body as `req.json()` sees it: unparsable (with the parser's message) or a JSON object. */
  datatype RequestBody = Malformed(parseError: string) | Json(interviewData: Option<InterviewData>)

  datatype Reply =
    | Preflight
    | NoResponse(metrics: Scores, message: string)
    | Analysis(metrics: Scores, recommendations: seq<string>)
    | Failure(error: string)

  function Status(r: Reply): nat
  {
    if r.Failure? then 500 else 200
  }

  /** All of transcript (non-empty), video data and audio data are present. */
  predicate Usable(d: Option<InterviewData>)
  {
    d.Some? && d.value.transcript.Some? && d.value.transcript.value != "" &&
    d.value.videoData.Some? && d.value.audioData.Some?
  }

  /**
   * The seven scores of a usable request. Clarity is never negative, and the two transcript scores
   * are percentages whatever the features.
   */
  function AllScores(transcript: string, v: VideoData, a: AudioData, counts: TextCounts): (s: Scores)
    ensures s.clarity >= 0 && Percent(s.responseQuality) && Percent(s.answerStructure)
  {
    Scores(ConfidenceScore(v, a), ClarityScore(a, counts.fillerWords), EyeContactScore(v),
           EngagementScore(v), SpeechRateScore(a.wordsPerMinute),
           ResponseQualityScore(transcript), AnswerStructureScore(transcript, counts.transitionWords))
  }

  /** The request handler; every method except OPTIONS is treated as a scoring request. */
  function Handle(httpMethod: HttpMethod, body: RequestBody, counts: TextCounts): (r: Reply)
    ensures httpMethod == Options <==> r.Preflight?
    ensures Status(r) == 500 <==> httpMethod != Options && body.Malformed?
    ensures httpMethod != Options && body.Json? && !Usable(body.interviewData) ==>
      r == NoResponse(ZeroScores, NoResponseMessage)
    ensures r.Analysis? <==> httpMethod != Options && body.Json? && Usable(body.interviewData)
    ensures r.Analysis? ==> |r.recommendations| <= 7 && r.metrics.clarity >= 0 && Percent(r.metrics.responseQuality)
    ensures r.Analysis? ==> r.recommendations == Recommendations(r.metrics)
    ensures httpMethod != Options && body.Malformed? ==> r == Failure(body.parseError)
    ensures r.Analysis? ==>
      var d := body.interviewData.value;
      r.metrics == AllScores(d.transcript.value, d.videoData.value, d.audioData.value, counts)
  {
    if httpMethod == Options then Preflight
    else match body
      case Malformed(e) => Failure(e)
      case Json(d) =>
        if !Usable(d) then NoResponse(ZeroScores, NoResponseMessage)
        else
          var data := d.value;
          var scores := AllScores(data.transcript.value, data.videoData.value, data.audioData.value, counts);
          RecommendationCount(scores);
          Analysis(scores, Recommendations(scores))
  }

  /** With features in their documented ranges every score of a usable request is in 0..100. */
  lemma ScoresInRange(transcript: string, v: VideoData, a: AudioData, counts: TextCounts)
    requires Unit(v.facialExpressions.engagement) && Unit(v.facialExpressions.attention) && Unit(v.facialExpressions.smile)
    requires Abs(v.headPose.roll) <= 45.0 && Abs(v.eyeGaze.direction.0) <= 45.0 && Unit(v.eyeGaze.confidence)
    requires Unit(a.volume) && Unit(a.clarity) && a.wordsPerMinute >= 0.0
    ensures var s := AllScores(transcript, v, a, counts);
      Percent(s.confidence) && Percent(s.clarity) && Percent(s.eyeContact) && Percent(s.engagement) &&
      Percent(s.speechRate) && Percent(s.responseQuality) && Percent(s.answerStructure)
  {
  }

  /**
   * A usable request whose features lie in their documented ranges is answered with seven
   * percentages and one message for each of them below 70, in table order.
   */
  lemma HandledScoresInRange(d: InterviewData, counts: TextCounts)
    requires Usable(Some(d))
    requires var v, a := d.videoData.value, d.audioData.value;
      Unit(v.facialExpressions.engagement) && Unit(v.facialExpressions.attention) && Unit(v.facialExpressions.smile) &&
      Abs(v.headPose.roll) <= 45.0 && Abs(v.eyeGaze.direction.0) <= 45.0 && Unit(v.eyeGaze.confidence) &&
      Unit(a.volume) && Unit(a.clarity) && a.wordsPerMinute >= 0.0
    ensures var r := Handle(Post, Json(Some(d)), counts);
      r.Analysis? && Percent(r.metrics.confidence) && Percent(r.metrics.clarity) && Percent(r.metrics.eyeContact) &&
      Percent(r.metrics.engagement) && Percent(r.metrics.speechRate) && |r.recommendations| == LowScores(r.metrics) &&
      r.recommendations == Select(Messages, LowFlags(r.metrics))
  {
    ScoresInRange(d.transcript.value, d.videoData.value, d.audioData.value, counts);
    var r := Handle(Post, Json(Some(d)), counts);
    RecommendationsSelect(r.metrics);
    RecommendationCount(r.metrics);
  }
}
