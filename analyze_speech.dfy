// The speech-analysis edge function: clarity from filler words, speaking rate from words
// per minute and pace variation, volume from level and consistency, and up to three
// recommendations chosen by those scores.

module AnalyzeSpeech {
  import opened JsCommon
  import opened JsText

  /** The `speechData` object of a request; `pitch` is carried but never read. */
  datatype SpeechData = SpeechData(transcript: string, duration: real, volume: seq<real>, pitch: seq<real>, pace: real)

  /** The words of a transcript: `transcript.split(' ')`, never empty. */
  function Words(transcript: string): (r: seq<string>)
    ensures |r| >= 1
  {
    Split(transcript, ' ')
  }

  // ------------------------------------------------------------ clarity

  /**
   * How many words the filler-word pattern matches. The case-insensitive whole-word regex
   * is the caller-supplied predicate `isFiller`.
   */
  function FillerCount(words: seq<string>, isFiller: string -> bool): (n: nat)
    ensures n <= |words|
    ensures n == 0 <==> forall k :: 0 <= k < |words| ==> !isFiller(words[k])
  {
    if words == [] then 0
    else FillerCount(words[..|words| - 1], isFiller) + BoolToNat(isFiller(words[|words| - 1]))
  }

  /** `analyzeSpeechClarity`: 100 less twice the filler percentage, clamped and rounded. */
  function Clarity(transcript: string, isFiller: string -> bool): (r: int)
    ensures 0 <= r <= 100
    ensures FillerCount(Words(transcript), isFiller) == 0 ==> r == 100
    ensures 2 * FillerCount(Words(transcript), isFiller) >= |Words(transcript)| ==> r == 0
  {
    var words := Words(transcript);
    var ratio := FillerCount(words, isFiller) as real / |words| as real;
    RatioBounds(FillerCount(words, isFiller), |words|);
    ClarityOfRatio(ratio)
  }

  lemma RatioBounds(count: nat, total: nat)
    requires total > 0
    ensures count == 0 ==> count as real / total as real == 0.0
    ensures 2 * count >= total ==> count as real / total as real >= 0.5
  {
    var a, b := count as real, total as real;
    var q := a / b;
    assert (q - 0.5) * b == a - 0.5 * b;
    if 2 * count >= total {
      NonNegativeFactor(q - 0.5, b);
    }
  }

  lemma NonNegativeFactor(x: real, y: real)
    requires y > 0.0 && x * y >= 0.0
    ensures x >= 0.0
  {
  }

  /** The clamped clarity score for a filler ratio. */
  function ClarityOfRatio(ratio: real): (r: int)
    ensures 0 <= r <= 100
    ensures ratio == 0.0 ==> r == 100
    ensures ratio >= 0.5 ==> r == 0
  {
    var score := Clamp(0.0, 100.0, 100.0 - ratio * 200.0);
    RoundWithin(score, 0, 100);
    RoundOfInt(100);
    RoundOfInt(0);
    Round(score)
  }

  // ------------------------------------------------------------ speaking rate

  /**
   * Words per minute as a JavaScript number: `words / (duration / 60)`. A zero duration
   * divides a positive word count by zero, which is +Infinity.
   */
  datatype Rate = Finite(wpm: real) | Infinite

  function WordsPerMinute(transcript: string, duration: real): (r: Rate)
    ensures r.Infinite? <==> duration == 0.0
    ensures r.Finite? ==> r.wpm * duration == 60.0 * |Words(transcript)| as real
  {
    if duration == 0.0 then Infinite else Finite(|Words(transcript)| as real / (duration / 60.0))
  }

  const OptimalWpm: real := 145.0

  /** The pace score: 100 less half the distance from 145 words per minute, clamped to [0, 100]. */
  function PaceScore(rate: Rate): (r: real)
    ensures 0.0 <= r <= 100.0
    ensures rate == Finite(OptimalWpm) ==> r == 100.0
    ensures rate.Infinite? ==> r == 0.0
    ensures rate.Finite? && Abs(rate.wpm - OptimalWpm) >= 200.0 ==> r == 0.0
    ensures rate.Finite? && Abs(rate.wpm - OptimalWpm) <= 200.0 ==> r == 100.0 - Abs(rate.wpm - OptimalWpm) / 2.0
  {
    match rate
    case Infinite => 0.0
    case Finite(w) => Clamp(0.0, 100.0, 100.0 - Abs(w - OptimalWpm) / 2.0)
  }

  /** The pace-variation score: 100 at a pace of 1, falling by 50 per unit either way, unclamped. */
  function PaceVariation(pace: real): (r: real)
    ensures r <= 100.0
    ensures r == 100.0 <==> pace == 1.0
    ensures r >= 0.0 <==> -1.0 <= pace <= 3.0
  {
    100.0 - Abs(pace - 1.0) * 50.0
  }

  /** `analyzeSpeechRate`: 70% pace score and 30% pace variation, rounded. */
  function SpeechRate(transcript: string, duration: real, pace: real): (r: int)
    ensures r <= 100
    ensures WordsPerMinute(transcript, duration) == Finite(OptimalWpm) && pace == 1.0 ==> r == 100
    ensures -1.0 <= pace <= 3.0 ==> r >= 0
  {
    var paceScore := PaceScore(WordsPerMinute(transcript, duration));
    var mix := paceScore * 0.7 + PaceVariation(pace) * 0.3;
    RoundMonotone(mix, 100.0);
    RoundOfInt(100);
    RoundOfInt(0);
    if 0.0 <= mix then RoundMonotone(0.0, mix); Round(mix) else Round(mix)
  }

  // ------------------------------------------------------------ volume

  /** The sum of squared distances of the samples from `mean`. */
  function SquaredDeviations(v: seq<real>, mean: real): (r: real)
    ensures r >= 0.0
  {
    if v == [] then 0.0
    else
      var x := v[|v| - 1] - mean;
      SquareNonNegative(x);
      SquaredDeviations(v[..|v| - 1], mean) + x * x
  }

  lemma SquareNonNegative(x: real)
    ensures x * x >= 0.0
  {
    if x < 0.0 {
      assert x * x == (-x) * (-x);
    }
  }

  /** The mean sample, or `None` for an empty array (where `0 / 0` is NaN). */
  function Average(v: seq<real>): (r: Option<real>)
    ensures r.None? <==> v == []
  {
    if v == [] then None else Some(Sum(v) / |v| as real)
  }

  /** The population variance of a non-empty sample array. */
  function Variance(v: seq<real>): (r: real)
    requires v != []
    ensures r >= 0.0
  {
    var d := SquaredDeviations(v, Average(v).value);
    QuotientNonNegative(d, |v| as real);
    d / |v| as real
  }

  lemma QuotientNonNegative(a: real, b: real)
    requires a >= 0.0 && b > 0.0
    ensures a / b >= 0.0
  {
  }

  /**
   * `analyzeVolume`: 60% level and 40% consistency, rounded; 0 for no samples. `root` is
   * `Math.sqrt(variance)`, which the model takes from the caller.
   */
  function VolumeScore(v: seq<real>, root: real): (r: int)
    requires v != [] ==> root >= 0.0 && root * root == Variance(v)
    ensures v == [] ==> r == 0
    ensures 0 <= r <= 100
  {
    if v == [] then 0
    else
      var level := VolumeLevel(Average(v).value);
      var consistency := Consistency(root);
      RoundWithin(level * 0.6 + consistency * 0.4, 0, 100);
      Round(level * 0.6 + consistency * 0.4)
  }

  /** The level component, `avgVolume · 100` clamped to [0, 100]. */
  function VolumeLevel(average: real): (r: real)
    ensures 0.0 <= r <= 100.0
    ensures 0.0 <= average <= 1.0 ==> r == average * 100.0
  {
    Clamp(0.0, 100.0, average * 100.0)
  }

  /** The consistency component, `100 - 10·sqrt(variance)` with a floor of 0; a steady voice scores 100. */
  function Consistency(root: real): (r: real)
    requires root >= 0.0
    ensures 0.0 <= r <= 100.0
    ensures r == 100.0 <==> root == 0.0
  {
    Max(0.0, 100.0 - root * 10.0)
  }

  /** Samples that all equal one value have no spread about their mean. */
  lemma {:induction false} SteadySum(v: seq<real>, a: real)
    requires forall k :: 0 <= k < |v| ==> v[k] == a
    ensures Sum(v) == |v| as real * a
    ensures SquaredDeviations(v, a) == 0.0
  {
    if v != [] {
      SteadySum(v[..|v| - 1], a);
    }
  }

  /** A steady voice at level `a` in [0, 1] scores `round(60·a + 40)`. */
  lemma SteadyVolume(v: seq<real>, a: real)
    requires v != [] && 0.0 <= a <= 1.0
    requires forall k :: 0 <= k < |v| ==> v[k] == a
    ensures Variance(v) == 0.0
    ensures VolumeScore(v, 0.0) == Round(a * 60.0 + 40.0)
  {
    SteadySum(v, a);
    assert Average(v).value == a;
  }

  // ------------------------------------------------------------ recommendations

  /** The five messages `generateRecommendations` can push; `Text` gives each one's wording. */
  datatype Advice = ReduceFillers | SlowDown | PickUpPace | SpeakUp | ModerateVolume

  function Text(a: Advice): string
  {
    match a
    case ReduceFillers =>
      "Try to reduce filler words like 'um', 'uh', and 'like'. Take brief pauses instead when gathering your thoughts."
    case SlowDown => "You're speaking a bit too quickly. Try to slow down and give your words more space."
    case PickUpPace => "Try to pick up your pace slightly while maintaining clarity."
    case SpeakUp => "Speak up a bit more confidently. Your voice should be clear and projecting."
    case ModerateVolume =>
      "Try to moderate your volume slightly. You want to be clearly heard without being too loud."
  }

  /** The rate advice: speeding above 160 words per minute (an infinite rate included), dragging below 130. */
  function RateAdvice(rate: Rate): seq<Advice>
  {
    match rate
    case Infinite => [SlowDown]
    case Finite(w) => if w > 160.0 then [SlowDown] else if w < 130.0 then [PickUpPace] else []
  }

  /** The volume advice: too quiet below an average of 0.5, too loud above 0.8; NaN matches neither. */
  function VolumeAdvice(average: Option<real>): seq<Advice>
  {
    match average
    case None => []
    case Some(a) => if a < 0.5 then [SpeakUp] else if a > 0.8 then [ModerateVolume] else []
  }

  /** The advice `generateRecommendations` gives, in push order. */
  function AdviceFor(clarity: int, speechRate: int, volume: int, d: SpeechData): seq<Advice>
  {
    When(clarity < 70, ReduceFillers)
    + (if speechRate < 70 then RateAdvice(WordsPerMinute(d.transcript, d.duration)) else [])
    + (if volume < 70 then VolumeAdvice(Average(d.volume)) else [])
  }

  /** `generateRecommendations`, pushing under the three score checks. */
  method GenerateRecommendations(clarity: int, speechRate: int, volume: int, d: SpeechData)
    returns (advice: seq<Advice>)
    ensures advice == AdviceFor(clarity, speechRate, volume, d)
    ensures |advice| <= 3
  {
    advice := [];
    if clarity < 70 {
      advice := advice + [ReduceFillers];
    }
    ghost var expected := When(clarity < 70, ReduceFillers);
    assert advice == expected;
    if speechRate < 70 {
      var wpm := WordsPerMinute(d.transcript, d.duration);
      if wpm.Infinite? || wpm.wpm > 160.0 {
        advice := advice + [SlowDown];
      } else if wpm.wpm < 130.0 {
        advice := advice + [PickUpPace];
      }
      expected := expected + RateAdvice(wpm);
    }
    assert advice == expected;
    if volume < 70 {
      var average := Average(d.volume);
      if average.Some? && average.value < 0.5 {
        advice := advice + [SpeakUp];
      } else if average.Some? && average.value > 0.8 {
        advice := advice + [ModerateVolume];
      }
      expected := expected + VolumeAdvice(average);
    }
    assert advice == expected;
  }

  /**
   * What each piece of advice means. Filler advice iff clarity is below 70; slow-down advice
   * iff the rate score is below 70 and the rate is above 160 words per minute; pick-up advice
   * iff the rate score is below 70 and the rate is below 130; speak-up and moderate advice
   * likewise for an average below 0.5 and above 0.8. So at most three messages.
   */
  lemma AdviceMeaning(clarity: int, speechRate: int, volume: int, d: SpeechData)
    ensures |AdviceFor(clarity, speechRate, volume, d)| <= 3
    ensures ReduceFillers in AdviceFor(clarity, speechRate, volume, d) <==> clarity < 70
    ensures SlowDown in AdviceFor(clarity, speechRate, volume, d) <==>
      speechRate < 70 && (WordsPerMinute(d.transcript, d.duration).Infinite? ||
                          WordsPerMinute(d.transcript, d.duration).wpm > 160.0)
    ensures PickUpPace in AdviceFor(clarity, speechRate, volume, d) <==>
      speechRate < 70 && WordsPerMinute(d.transcript, d.duration).Finite? &&
      WordsPerMinute(d.transcript, d.duration).wpm < 130.0
    ensures SpeakUp in AdviceFor(clarity, speechRate, volume, d) <==>
      volume < 70 && d.volume != [] && Average(d.volume).value < 0.5
    ensures ModerateVolume in AdviceFor(clarity, speechRate, volume, d) <==>
      volume < 70 && d.volume != [] && Average(d.volume).value > 0.8
  {
    var a := When(clarity < 70, ReduceFillers);
    var b := if speechRate < 70 then RateAdvice(WordsPerMinute(d.transcript, d.duration)) else [];
    var c := if volume < 70 then VolumeAdvice(Average(d.volume)) else [];
    assert AdviceFor(clarity, speechRate, volume, d) == a + b + c;
  }

  // ------------------------------------------------------------ the handler

  /** The response; each recommendation is sent as its `Text`. */
  datatype SpeechAnalysis = SpeechAnalysis(clarity: int, speechRate: int, volume: int, recommendations: seq<Advice>)

  /** The body as `req.json()` sees it: unparsable (with the parser's message) or an object. */
  datatype RequestBody = Unparsable(parseError: string) | Parsed(speechData: Option<SpeechData>)

  datatype Reply =
    | Preflight
    | BadRequest(error: Option<string>)
    | Analysed(analysis: SpeechAnalysis)

  /** The status code; the preflight and the analysis use the default 200. */
  function Status(r: Reply): nat
  {
    if r.BadRequest? then 400 else 200
  }

  /** The square-root parameter fits the volume samples of a body. */
  predicate RootFits(body: RequestBody, root: real)
  {
    body.Parsed? && body.speechData.Some? && body.speechData.value.volume != [] ==>
      root >= 0.0 && root * root == Variance(body.speechData.value.volume)
  }

  /** The three scores and the advice for a request's speech data. */
  function Analyse(d: SpeechData, isFiller: string -> bool, root: real): (a: SpeechAnalysis)
    requires d.volume != [] ==> root >= 0.0 && root * root == Variance(d.volume)
    ensures 0 <= a.clarity <= 100 && a.speechRate <= 100 && 0 <= a.volume <= 100
    ensures |a.recommendations| <= 3
  {
    var clarity := Clarity(d.transcript, isFiller);
    var rate := SpeechRate(d.transcript, d.duration, d.pace);
    var volume := VolumeScore(d.volume, root);
    AdviceMeaning(clarity, rate, volume, d);
    SpeechAnalysis(clarity, rate, volume, AdviceFor(clarity, rate, volume, d))
  }

  /**
   * The request handler. OPTIONS is answered at once; any other method is analysed. A body
   * that does not parse, or has no `speechData` (the property reads throw), is a 400 with
   * the error message; the runtime's own message for the missing object is not modelled.
   */
  function Handle(httpMethod: HttpMethod, body: RequestBody, isFiller: string -> bool, root: real): (r: Reply)
    requires RootFits(body, root)
    ensures httpMethod == Options <==> r.Preflight?
    ensures httpMethod != Options && body.Unparsable? ==> r == BadRequest(Some(body.parseError))
    ensures Status(r) == 400 <==> httpMethod != Options && (body.Unparsable? || body.speechData.None?)
    ensures r.Analysed? ==> r.analysis == Analyse(body.speechData.value, isFiller, root)
  {
    if httpMethod == Options then Preflight
    else match body
      case Unparsable(e) => BadRequest(Some(e))
      case Parsed(None) => BadRequest(None)
      case Parsed(Some(d)) => Analysed(Analyse(d, isFiller, root))
  }
}
