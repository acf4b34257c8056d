/**
 * The live analysis panel: its start/stop lifecycle with the demo generator, the camera
 * request and the five-second change tracker; the alerts, suggestions, speech-rate
 * history, clock text and score colours it derives from the current metrics.
 */
module InterviewAnalysis {

  import opened JsCommon
  import opened JsText
  import opened RealTimeMetrics

  // ---------------------------------------------------------------------------
  // Change percentages
  // ---------------------------------------------------------------------------

  /** A figure on either scale as percentage points: values up to 1 are read as fractions. */
  function AsPercent(v: real): real
  {
    if v <= 1.0 then v * 100.0 else v
  }

  /** Change from `previous` to `current` in percentage points, limited to -100..100. */
  function ComputePct(current: real, previous: real): (r: real)
    ensures -100.0 <= r <= 100.0
    ensures -100.0 <= AsPercent(current) - AsPercent(previous) <= 100.0 ==>
              r == AsPercent(current) - AsPercent(previous)
    ensures AsPercent(current) - AsPercent(previous) > 100.0 ==> r == 100.0
    ensures AsPercent(current) - AsPercent(previous) < -100.0 ==> r == -100.0
  {
    Clamp(-100.0, 100.0, AsPercent(current) - AsPercent(previous))
  }

  lemma ComputePctAntisymmetric(a: real, b: real)
    ensures ComputePct(a, b) == -ComputePct(b, a)
  {
  }

  lemma ComputePctUnchanged(a: real)
    ensures ComputePct(a, a) == 0.0
  {
  }

  /** A percentage above 1 measured against a zero reading changes by all of itself. */
  lemma ComputePctFromZero(v: real)
    requires 1.0 < v <= 100.0
    ensures ComputePct(v, 0.0) == v
  {
  }

  /** Two fractions (0..1) change by their difference times 100, which never needs clamping. */
  lemma ComputePctOfFractions(a: real, b: real)
    requires 0.0 <= a <= 1.0 && 0.0 <= b <= 1.0
    ensures ComputePct(a, b) == (a - b) * 100.0
  {
  }

  /** The six deltas the panel shows next to its gauges. */
  datatype ChangePct = ChangePct(
    backStraightness: real, postureStability: real,
    emotionConfidence: real, engagement: real,
    clarity: real, voiceConfidence: real)

  const NoChange: ChangePct := ChangePct(0.0, 0.0, 0.0, 0.0, 0.0, 0.0)

  predicate DeltaInRange(d: ChangePct)
  {
    -100.0 <= d.backStraightness <= 100.0 && -100.0 <= d.postureStability <= 100.0 &&
    -100.0 <= d.emotionConfidence <= 100.0 && -100.0 <= d.engagement <= 100.0 &&
    -100.0 <= d.clarity <= 100.0 && -100.0 <= d.voiceConfidence <= 100.0
  }

  function Deltas(current: Metrics, baseline: Metrics): (d: ChangePct)
    ensures DeltaInRange(d)
    ensures d.backStraightness == ComputePct(current.posture.backStraightness, baseline.posture.backStraightness)
    ensures d.postureStability == ComputePct(current.posture.stability, baseline.posture.stability)
    ensures d.emotionConfidence == ComputePct(current.emotion.confidence, baseline.emotion.confidence)
    ensures d.engagement == ComputePct(current.emotion.engagement, baseline.emotion.engagement)
    ensures d.clarity == ComputePct(current.voice.clarity, baseline.voice.clarity)
    ensures d.voiceConfidence == ComputePct(current.voice.confidence, baseline.voice.confidence)
  {
    ChangePct(
      ComputePct(current.posture.backStraightness, baseline.posture.backStraightness),
      ComputePct(current.posture.stability, baseline.posture.stability),
      ComputePct(current.emotion.confidence, baseline.emotion.confidence),
      ComputePct(current.emotion.engagement, baseline.emotion.engagement),
      ComputePct(current.voice.clarity, baseline.voice.clarity),
      ComputePct(current.voice.confidence, baseline.voice.confidence))
  }

  /** Metrics compared with themselves show no change at all. */
  lemma DeltasAgainstSelf(m: Metrics)
    ensures Deltas(m, m) == NoChange
  {
  }

  // ---------------------------------------------------------------------------
  // Alerts and suggestions
  // ---------------------------------------------------------------------------

  const AlertPosture := "\U{1F4A1} Try to sit up straighter with shoulders relaxed"
  const AlertHead := "\U{1F4A1} Keep your head level and centered"
  const AlertEyeContact := "\U{1F4A1} Maintain eye contact to project confidence"
  const AlertClarity := "\U{1F4A1} Speak more clearly and enunciate your words"
  const AlertPace := "\U{1F4A1} Slow down your speaking pace"
  const AlertFillers := "\U{1F4A1} Try to reduce filler words like 'um' and 'uh'"

  /** Every alert whose condition holds, in the order the rules are checked. */
  function AlertCandidates(m: Metrics, fillerWords: nat): seq<string>
  {
    When(m.posture.backStraightness < 70.0, AlertPosture) +
    When(m.posture.headTilt > 5.0, AlertHead) +
    When(m.emotion.confidence < 0.6, AlertEyeContact) +
    When(m.voice.clarity < 0.6, AlertClarity) +
    When(m.voice.speechRate > 0.8, AlertPace) +
    When(fillerWords > 5, AlertFillers)
  }

  /** The alerts shown: the first three candidates. */
  function Alerts(m: Metrics, fillerWords: nat): (r: seq<string>)
    ensures |r| <= 3 && |r| <= |AlertCandidates(m, fillerWords)|
    ensures r == AlertCandidates(m, fillerWords)[..|r|]
  {
    First(AlertCandidates(m, fillerWords), 3)
  }

  predicate NoAlertCondition(m: Metrics, fillerWords: nat)
  {
    m.posture.backStraightness >= 70.0 && m.posture.headTilt <= 5.0 && m.emotion.confidence >= 0.6 &&
    m.voice.clarity >= 0.6 && m.voice.speechRate <= 0.8 && fillerWords <= 5
  }

  method GenerateAlerts(m: Metrics, fillerWords: nat) returns (alerts: seq<string>)
    ensures alerts == Alerts(m, fillerWords)
  {
    var list: seq<string> := When(m.posture.backStraightness < 70.0, AlertPosture);
    list := list + When(m.posture.headTilt > 5.0, AlertHead);
    list := list + When(m.emotion.confidence < 0.6, AlertEyeContact);
    list := list + When(m.voice.clarity < 0.6, AlertClarity);
    list := list + When(m.voice.speechRate > 0.8, AlertPace);
    list := list + When(fillerWords > 5, AlertFillers);
    alerts := if |list| <= 3 then list else list[..3];
  }

  /** No alert exactly when no condition holds. */
  lemma AlertsEmpty(m: Metrics, fillerWords: nat)
    ensures Alerts(m, fillerWords) == [] <==> NoAlertCondition(m, fillerWords)
  {
  }

  /** The posture alert, when raised, always comes first. */
  lemma PostureAlertFirst(m: Metrics, fillerWords: nat)
    requires m.posture.backStraightness < 70.0
    ensures Alerts(m, fillerWords)[0] == AlertPosture
  {
  }

  /** With every condition raised only the first three (posture, head, eye contact) are shown. */
  lemma AllAlertsRaised(m: Metrics, fillerWords: nat)
    requires m.posture.backStraightness < 70.0 && m.posture.headTilt > 5.0 && m.emotion.confidence < 0.6
    ensures Alerts(m, fillerWords) == [AlertPosture, AlertHead, AlertEyeContact]
  {
  }

  /** A single condition yields exactly its own alert. */
  lemma OnlyFillerAlert(m: Metrics, fillerWords: nat)
    requires m.posture.backStraightness >= 70.0 && m.posture.headTilt <= 5.0 && m.emotion.confidence >= 0.6
    requires m.voice.clarity >= 0.6 && m.voice.speechRate <= 0.8 && fillerWords > 5
    ensures Alerts(m, fillerWords) == [AlertFillers]
  {
  }

  const SuggestPosture := "Sit up straighter to improve back alignment"
  const SuggestStability := "Reduce fidgeting to increase body stability"
  const SuggestLean := "Keep your body centered; avoid leaning"
  const SuggestHead := "Level your head to face the camera"
  const SuggestEngagement := "Show a bit more facial engagement (nods, smiles)"
  const SuggestEyeContact := "Maintain eye contact with the camera to convey confidence"
  const SuggestArticulate := "Articulate clearly and open your mouth slightly more"
  const SuggestPace := "Slow down your speaking pace"
  const SuggestLower := "Lower your volume slightly"
  const SuggestLouder := "Increase your volume a little"
  const GreatPerformance := "Great performance! Keep it up"

  function SuggestionCandidates(m: Metrics): seq<string>
  {
    BodyAndDeliverySuggestions(m) +
    When(m.voice.volume > 0.85, SuggestLower) +
    When(m.voice.volume < 0.4, SuggestLouder)
  }

  /** The rules before the two volume rules. */
  function BodyAndDeliverySuggestions(m: Metrics): seq<string>
  {
    When(m.posture.backStraightness < 70.0, SuggestPosture) +
    When(m.posture.stability < 70.0, SuggestStability) +
    When(m.posture.bodyLean > 7.0, SuggestLean) +
    When(m.posture.headTilt > 7.0, SuggestHead) +
    When(m.emotion.engagement < 0.6, SuggestEngagement) +
    When(m.emotion.confidence < 0.6, SuggestEyeContact) +
    When(m.voice.clarity < 0.6, SuggestArticulate) +
    When(m.voice.speechRate > 0.75, SuggestPace)
  }

  predicate WithinAllTargets(m: Metrics)
  {
    m.posture.backStraightness >= 70.0 && m.posture.stability >= 70.0 && m.posture.bodyLean <= 7.0 &&
    m.posture.headTilt <= 7.0 && m.emotion.engagement >= 0.6 && m.emotion.confidence >= 0.6 &&
    m.voice.clarity >= 0.6 && m.voice.speechRate <= 0.75 && 0.4 <= m.voice.volume <= 0.85
  }

  /** The live feedback list: at most five suggestions, in rule order. */
  function BuildSuggestions(m: Metrics): (r: seq<string>)
    ensures |r| <= 5 && |r| <= |SuggestionCandidates(m)|
    ensures r == SuggestionCandidates(m)[..|r|]
    ensures r == [] <==> WithinAllTargets(m)
  {
    First(SuggestionCandidates(m), 5)
  }

  /** No reading is both too loud and too quiet, so the two volume suggestions never appear together. */
  lemma VolumeSuggestionsExclusive(m: Metrics)
    ensures !(SuggestLower in BuildSuggestions(m) && SuggestLouder in BuildSuggestions(m))
  {
    NoVolumeBefore(m);
    SuggestionsAreCandidates(m);
  }

  /** Neither volume suggestion comes from the rules before the volume rules. */
  lemma NoVolumeBefore(m: Metrics)
    ensures SuggestLower !in BodyAndDeliverySuggestions(m) && SuggestLouder !in BodyAndDeliverySuggestions(m)
  {
    assert forall x :: x in BodyAndDeliverySuggestions(m) ==> |x| != |SuggestLower| && |x| != |SuggestLouder|;
  }

  /** Every suggestion shown is one of the candidates. */
  lemma SuggestionsAreCandidates(m: Metrics)
    ensures forall x :: x in BuildSuggestions(m) ==> x in SuggestionCandidates(m)
  {
    var c := SuggestionCandidates(m);
    assert BuildSuggestions(m) == c[..|BuildSuggestions(m)|];
    assert forall i :: 0 <= i < |BuildSuggestions(m)| ==> BuildSuggestions(m)[i] == c[i];
  }

  /** What the feedback box lists: the suggestions, or the praise line when there are none. */
  function LiveFeedback(m: Metrics): (r: seq<string>)
    ensures 1 <= |r| <= 5
    ensures WithinAllTargets(m) ==> r == [GreatPerformance]
    ensures !WithinAllTargets(m) ==> r == BuildSuggestions(m)
  {
    var s := BuildSuggestions(m);
    if |s| == 0 then [GreatPerformance] else s
  }

  // ---------------------------------------------------------------------------
  // Speech-rate history
  // ---------------------------------------------------------------------------

  /** The last `n` elements of `s` (all of them when there are fewer). */
  function Last<T>(s: seq<T>, n: nat): (r: seq<T>)
    ensures |r| == if |s| <= n then |s| else n
    ensures r == s[|s| - |r|..]
  {
    if |s| <= n then s else s[|s| - n..]
  }

  /** `[...prev.slice(-19), rate]`. */
  function PushHistory(prev: seq<real>, rate: real): (r: seq<real>)
    ensures 1 <= |r| <= 20 && r[|r| - 1] == rate
  {
    Last(prev, 19) + [rate]
  }

  function PushAll(history: seq<real>, rates: seq<real>): seq<real>
  {
    if rates == [] then history
    else PushHistory(PushAll(history, rates[..|rates| - 1]), rates[|rates| - 1])
  }

  lemma PushKeepsWindow(s: seq<real>, x: real)
    ensures PushHistory(Last(s, 20), x) == Last(s + [x], 20)
  {
    var n := |s|;
    if n >= 20 {
      var w := s[n - 20..];
      assert Last(s, 20) == w;
      assert Last(w, 19) == s[n - 19..];
      assert Last(s + [x], 20) == (s + [x])[n - 19..];
      assert (s + [x])[n - 19..] == s[n - 19..] + [x];
    } else {
      assert Last(s, 20) == s;
      assert Last(s, 19) == s;
      assert Last(s + [x], 20) == s + [x];
    }
  }

  /** However many rates arrive, the history holds exactly the latest twenty of them, in order. */
  lemma {:induction false} HistoryIsLatestTwenty(history: seq<real>, rates: seq<real>)
    requires |history| <= 20
    ensures PushAll(history, rates) == Last(history + rates, 20)
  {
    if rates != [] {
      var init := rates[..|rates| - 1];
      var x := rates[|rates| - 1];
      calc {
        PushAll(history, rates);
        PushHistory(PushAll(history, init), x);
        { HistoryIsLatestTwenty(history, init); }
        PushHistory(Last(history + init, 20), x);
        { PushKeepsWindow(history + init, x); }
        Last(history + init + [x], 20);
        { assert history + init + [x] == history + rates; }
        Last(history + rates, 20);
      }
    }
  }

  // ---------------------------------------------------------------------------
  // Clock text and score colours
  // ---------------------------------------------------------------------------

  /** `${Math.floor(s / 60)}:${String(Math.floor(s % 60)).padStart(2, '0')}` for a non-negative time. */
  function FormatClock(seconds: real): string
    requires seconds >= 0.0
  {
    var mins := (seconds / 60.0).Floor;
    var secs := (seconds - 60.0 * mins as real).Floor;
    Decimal(mins) + ":" + PadStart2(Decimal(secs))
  }

  /** The clock text reads back as whole minutes and the remaining whole seconds. */
  lemma ClockRoundTrip(seconds: real)
    requires seconds >= 0.0
    ensures ParseClock(FormatClock(seconds)) == Some((seconds.Floor / 60, seconds.Floor % 60))
  {
    var q := (seconds / 60.0).Floor;
    var r := (seconds - 60.0 * q as real).Floor;
    ClockFields(seconds);
    assert FormatClock(seconds) == Decimal(q) + ":" + PadStart2(Decimal(r));
    DecimalRoundTrip(q);
    ParseClockOf(Decimal(q), q, r);
  }

  /** The two clock fields are the whole seconds divided by 60, and the remainder. */
  lemma ClockFields(seconds: real)
    requires seconds >= 0.0
    ensures var q := (seconds / 60.0).Floor;
            q == seconds.Floor / 60 && (seconds - 60.0 * q as real).Floor == seconds.Floor % 60
  {
    var n := seconds.Floor;
    var q := (seconds / 60.0).Floor;
    assert 60 * q <= n < 60 * q + 60;
    assert n / 60 == q && n % 60 == n - 60 * q;
  }

  datatype Tier = Green | Yellow | Red

  function TierRank(t: Tier): nat
  {
    match t
    case Red => 0
    case Yellow => 1
    case Green => 2
  }

  /** The colour of a 0..1 score: green from 0.8, yellow from 0.6, red below. */
  function ScoreTier(score: real): (t: Tier)
    ensures t == Green <==> score >= 0.8
    ensures t == Red <==> score < 0.6
  {
    if score >= 0.8 then Green else if score >= 0.6 then Yellow else Red
  }

  /** Status icon colour: green from the threshold, yellow from 60% of it, red below. */
  function StatusTier(score: real, threshold: real): (t: Tier)
    requires threshold >= 0.0
    ensures t == Green <==> score >= threshold
    ensures t == Red <==> score < threshold * 0.6
  {
    if score >= threshold then Green else if score >= threshold * 0.6 then Yellow else Red
  }

  /** A higher score never gets a worse colour. */
  lemma TiersMonotone(a: real, b: real, threshold: real)
    requires a <= b && threshold >= 0.0
    ensures TierRank(ScoreTier(a)) <= TierRank(ScoreTier(b))
    ensures TierRank(StatusTier(a, threshold)) <= TierRank(StatusTier(b, threshold))
  {
  }

  // ---------------------------------------------------------------------------
  // The demo generator
  // ---------------------------------------------------------------------------

  /**
   * The ranges the demo generator draws the figures from (`Math.random()` lies in [0, 1));
   * the emotion label is drawn separately, as an index into the label list.
   */
  predicate DemoMetrics(m: Metrics)
  {
    70.0 <= m.posture.backStraightness < 100.0 && 0.0 <= m.posture.headTilt < 10.0 &&
    0.0 <= m.posture.bodyLean < 10.0 && 70.0 <= m.posture.stability < 100.0 &&
    0.6 <= m.emotion.confidence < 1.0 && 0.6 <= m.emotion.stability < 1.0 && 0.6 <= m.emotion.engagement < 1.0 &&
    0.6 <= m.voice.clarity < 1.0 && 0.6 <= m.voice.speechRate < 1.0 && 0.6 <= m.voice.tone < 1.0 &&
    0.6 <= m.voice.volume < 1.0 && 0.6 <= m.voice.confidence < 1.0
  }

  const DemoWords: seq<string> := ["Hello", "I", "think", "that", "um", "the", "project", "is", "going", "well"]

  lemma DemoWordsNotEmpty(i: nat)
    requires i < |DemoWords|
    ensures DemoWords[i] != "" && |DemoWords| == 10
  {
  }

  /** Demo metrics can only raise the head-tilt, pace and filler alerts. */
  lemma DemoAlerts(m: Metrics, fillerWords: nat, a: string)
    requires DemoMetrics(m) && a in Alerts(m, fillerWords)
    ensures a == AlertHead || a == AlertPace || a == AlertFillers
  {
    assert a in AlertCandidates(m, fillerWords);
  }

  predicate IsFiller(w: string)
  {
    w == "um" || w == "uh"
  }

  /** The fillers among the words heard, counted one word at a time. */
  function FillerCount(words: seq<string>): (n: nat)
    ensures n <= |words|
  {
    if words == [] then 0
    else FillerCount(words[..|words| - 1]) + (if IsFiller(words[|words| - 1]) then 1 else 0)
  }

  /** The filler count is how many of the words are "um" plus how many are "uh". */
  lemma {:induction false} FillerCountCounts(words: seq<string>)
    ensures FillerCount(words) == multiset(words)["um"] + multiset(words)["uh"]
  {
    if words != [] {
      var init, last := words[..|words| - 1], words[|words| - 1];
      assert words == init + [last];
      FillerCountCounts(init);
      assert multiset(words) == multiset(init) + multiset{last};
    }
  }

  /** `prev + (prev ? ' ' : '') + word`. */
  function AppendWord(transcript: string, word: string): string
  {
    transcript + (if transcript != "" then " " else "") + word
  }

  /** Appending a word to the joined transcript is joining one more word. */
  lemma AppendWordJoins(words: seq<string>, w: string)
    requires forall k :: 0 <= k < |words| ==> words[k] != ""
    ensures AppendWord(Join(words, " "), w) == Join(words + [w], " ")
  {
    if words != [] {
      JoinSnoc(words, w, " ");
      JoinNotEmpty(words);
    }
  }

  lemma JoinNotEmpty(words: seq<string>)
    requires |words| >= 1 && words[0] != ""
    ensures Join(words, " ") != ""
  {
  }

  /** The transcript after the words `words` were appended one by one to an empty one. */
  function TranscriptAfter(words: seq<string>): string
  {
    if words == [] then "" else AppendWord(TranscriptAfter(words[..|words| - 1]), words[|words| - 1])
  }

  /** One more word heard: the transcript gains it and the count gains it when it is a filler. */
  lemma HeardOneMore(words: seq<string>, w: string)
    ensures TranscriptAfter(words + [w]) == AppendWord(TranscriptAfter(words), w)
    ensures FillerCount(words + [w]) == FillerCount(words) + BoolToNat(IsFiller(w))
  {
    assert (words + [w])[..|words|] == words;
  }

  /** Words appended one at a time read as those words joined by single spaces. */
  lemma {:induction false} TranscriptIsJoin(words: seq<string>)
    requires forall k :: 0 <= k < |words| ==> words[k] != ""
    ensures TranscriptAfter(words) == Join(words, " ")
  {
    if words != [] {
      var init := words[..|words| - 1];
      TranscriptIsJoin(init);
      AppendWordJoins(init, words[|words| - 1]);
      assert init + [words[|words| - 1]] == words;
    }
  }

  // ---------------------------------------------------------------------------
  // The component state
  // ---------------------------------------------------------------------------

  /** Each interval ref is set exactly when one interval of its kind is live. */
  ghost predicate TimersMatch(mockTimer: bool, mockIntervals: nat, changeTimer: bool, changeIntervals: nat)
  {
    mockIntervals == BoolToNat(mockTimer) && changeIntervals == BoolToNat(changeTimer)
  }

  /** No camera request belongs to a session after `session`. */
  predicate NoLaterRequest(pending: set<nat>, session: nat)
  {
    forall id :: id in pending ==> id <= session
  }

  class LiveAnalysis {
    var isAnalyzing: bool
    var metrics: Metrics
    var recordingTime: real
    /** The `timeElapsed` counter of the running demo interval. */
    var mockElapsed: real
    /** Whether `mockTimerRef.current` holds an interval, and how many demo intervals are live. */
    var mockTimer: bool
    var mockIntervals: nat
    /** Whether `changeTimerRef.current` holds an interval, and how many tracker intervals are live. */
    var changeTimer: bool
    var changeIntervals: nat
    var snapshot: Option<Metrics>
    /** The `metrics` value the tracker's interval callback closed over when it was created. */
    var captured: Metrics
    var changePct: ChangePct
    var alerts: seq<string>
    var speechHistory: seq<real>
    var transcript: string
    var fillerWords: nat
    /** The demo words heard so far, in order. */
    ghost var heard: seq<string>
    /** Incremented by every start and stop; a camera request remembers the one it was made in. */
    var session: nat
    var pendingCamera: set<nat>
    /** Whether the video element holds a camera stream, and how many of its tracks are live. */
    var streamAttached: bool
    var openTracks: nat
    /** Live tracks of streams the video element no longer references: nothing can stop them. */
    var strayTracks: nat

    /**
     * The lifecycle invariant, the cap on the displayed alerts, and the transcript and filler
     * count as the words heard make them. (The speech-rate history's cap of twenty is kept by
     * `PushHistory` itself.)
     */
    ghost predicate Valid()
      reads this`mockTimer, this`mockIntervals, this`changeTimer, this`changeIntervals, this`isAnalyzing,
            this`streamAttached, this`snapshot, this`session, this`pendingCamera, this`openTracks, this`strayTracks,
            this`alerts, this`transcript, this`fillerWords, this`heard
    {
      Lifecycle() && |alerts| <= 3 && Heard()
    }

    /** The transcript is the words heard, appended one by one, and the filler count counts their fillers. */
    ghost predicate Heard()
      reads this`transcript, this`fillerWords, this`heard
    {
      transcript == TranscriptAfter(heard) && fillerWords == FillerCount(heard)
    }

    /**
     * Timers match their live intervals, stopped means nothing left running, a pending camera
     * request belongs to a start not yet under way, and no stream is left unreferenced.
     */
    ghost predicate Lifecycle()
      reads this`mockTimer, this`mockIntervals, this`changeTimer, this`changeIntervals, this`isAnalyzing,
            this`streamAttached, this`snapshot, this`session, this`pendingCamera, this`openTracks, this`strayTracks
    {
      TimersMatch(mockTimer, mockIntervals, changeTimer, changeIntervals) &&
      (!isAnalyzing ==> !mockTimer && !changeTimer && !streamAttached && snapshot == None) &&
      (session in pendingCamera ==> !mockTimer && !changeTimer && !streamAttached && snapshot == None) &&
      (streamAttached ==> session !in pendingCamera) &&
      (!streamAttached ==> openTracks == 0) &&
      NoLaterRequest(pendingCamera, session) &&
      strayTracks == 0
    }

    constructor ()
      ensures Valid()
      ensures !isAnalyzing && metrics == InitialMetrics && recordingTime == 0.0
      ensures !mockTimer && !changeTimer && snapshot == None && changePct == NoChange
      ensures alerts == [] && speechHistory == [] && transcript == "" && fillerWords == 0 && heard == []
      ensures !streamAttached && openTracks == 0 && pendingCamera == {}
    {
      isAnalyzing := false;
      metrics := InitialMetrics;
      recordingTime := 0.0;
      mockElapsed := 0.0;
      mockTimer := false;
      mockIntervals := 0;
      changeTimer := false;
      changeIntervals := 0;
      snapshot := None;
      captured := InitialMetrics;
      changePct := NoChange;
      alerts := [];
      speechHistory := [];
      transcript := "";
      fillerWords := 0;
      heard := [];
      session := 0;
      pendingCamera := {};
      streamAttached := false;
      openTracks := 0;
      strayTracks := 0;
    }

    /** Takes a snapshot now and (re)starts the five-second tracker: never two tracker intervals. */
    method StartChangeTracking()
      requires TimersMatch(mockTimer, mockIntervals, changeTimer, changeIntervals)
      modifies this`snapshot, this`captured, this`changeTimer, this`changeIntervals
      ensures TimersMatch(mockTimer, mockIntervals, changeTimer, changeIntervals) && changeTimer && changeIntervals == 1
      ensures snapshot == Some(metrics) && captured == metrics
    {
      snapshot := Some(metrics);
      captured := metrics;
      if changeTimer {
        changeIntervals := changeIntervals - 1;
      }
      changeTimer := true;
      changeIntervals := changeIntervals + 1;
    }

    method StopChangeTracking()
      requires TimersMatch(mockTimer, mockIntervals, changeTimer, changeIntervals)
      modifies this`snapshot, this`changeTimer, this`changeIntervals
      ensures TimersMatch(mockTimer, mockIntervals, changeTimer, changeIntervals) && !changeTimer && changeIntervals == 0 && snapshot == None
    {
      if changeTimer {
        changeIntervals := changeIntervals - 1;
        changeTimer := false;
      }
      snapshot := None;
    }

    method StopMock()
      requires TimersMatch(mockTimer, mockIntervals, changeTimer, changeIntervals)
      modifies this`mockTimer, this`mockIntervals, this`snapshot, this`changeTimer, this`changeIntervals
      ensures TimersMatch(mockTimer, mockIntervals, changeTimer, changeIntervals) && !mockTimer && mockIntervals == 0 && !changeTimer && changeIntervals == 0
      ensures snapshot == None
    {
      if mockTimer {
        mockIntervals := mockIntervals - 1;
        mockTimer := false;
      }
      StopChangeTracking();
    }

    /** Clears any previous demo interval, starts a fresh one and starts change tracking. */
    method StartMock()
      requires TimersMatch(mockTimer, mockIntervals, changeTimer, changeIntervals)
      modifies this`mockTimer, this`mockIntervals, this`mockElapsed, this`snapshot, this`captured,
               this`changeTimer, this`changeIntervals
      ensures TimersMatch(mockTimer, mockIntervals, changeTimer, changeIntervals) && mockTimer && mockIntervals == 1 && changeTimer && changeIntervals == 1
      ensures mockElapsed == 0.0 && snapshot == Some(metrics) && captured == metrics
    {
      StopMock();
      mockElapsed := 0.0;
      mockTimer := true;
      mockIntervals := mockIntervals + 1;
      StartChangeTracking();
    }

    /**
     * The Start button (shown only while stopped). Demo mode starts the generator at once;
     * live mode marks the panel as analysing and issues a camera request, returned as its id.
     */
    method Start(demoMode: bool) returns (cameraRequest: Option<nat>)
      requires Valid() && !isAnalyzing
      modifies this`isAnalyzing, this`session, this`pendingCamera, this`mockTimer, this`mockIntervals,
               this`mockElapsed, this`snapshot, this`captured, this`changeTimer, this`changeIntervals
      ensures Valid() && isAnalyzing && session == old(session) + 1
      ensures demoMode ==> cameraRequest == None && pendingCamera == old(pendingCamera)
      ensures demoMode ==> mockTimer && changeTimer && snapshot == Some(metrics) && captured == metrics && mockElapsed == 0.0
      ensures !demoMode ==> cameraRequest == Some(session) && pendingCamera == old(pendingCamera) + {session}
      ensures !demoMode ==> !mockTimer && !changeTimer && snapshot == None
    {
      isAnalyzing := true;
      session := session + 1;
      if demoMode {
        StartMock();
        cameraRequest := None;
      } else {
        pendingCamera := pendingCamera + {session};
        cameraRequest := Some(session);
      }
    }

    /**
     * The camera request `id` settles. A grant for the current, still running start attaches the
     * stream and starts change tracking; a refusal for it stops the panel; a result for an
     * earlier start is discarded and its tracks stopped on the spot.
     */
    method MediaResolved(id: nat, granted: bool, tracks: nat)
      requires Valid() && id in pendingCamera
      modifies this`pendingCamera, this`isAnalyzing, this`streamAttached, this`openTracks,
               this`snapshot, this`captured, this`changeTimer, this`changeIntervals
      ensures Valid() && pendingCamera == old(pendingCamera) - {id}
      ensures var current := id == session && old(isAnalyzing);
              (current && granted ==> streamAttached && openTracks == tracks && changeTimer && snapshot == Some(metrics)) &&
              (current && !granted ==> !isAnalyzing && !streamAttached) &&
              (!current ==> isAnalyzing == old(isAnalyzing) && streamAttached == old(streamAttached) &&
                            openTracks == old(openTracks) && changeTimer == old(changeTimer) && snapshot == old(snapshot))
    {
      pendingCamera := pendingCamera - {id};
      if id == session && isAnalyzing {
        if granted {
          streamAttached := true;
          openTracks := tracks;
          StartChangeTracking();
        } else {
          isAnalyzing := false;
        }
      }
    }

    /**
     * The same settlement as the source performs it: no check that the start is still current.
     * A refusal stops whatever is running; a grant replaces the attached stream without
     * stopping its tracks and restarts change tracking even after Stop.
     */
    method MediaResolvedAsWritten(id: nat, granted: bool, tracks: nat)
      requires Valid() && id in pendingCamera
      modifies this`pendingCamera, this`isAnalyzing, this`streamAttached, this`openTracks, this`strayTracks,
               this`snapshot, this`captured, this`changeTimer, this`changeIntervals
      ensures pendingCamera == old(pendingCamera) - {id} && TimersMatch(mockTimer, mockIntervals, changeTimer, changeIntervals)
      ensures !granted ==> !isAnalyzing && streamAttached == old(streamAttached) && changeTimer == old(changeTimer)
      ensures granted ==> isAnalyzing == old(isAnalyzing) && streamAttached && openTracks == tracks && changeTimer
      ensures granted ==> strayTracks == old(strayTracks) + (if old(streamAttached) then old(openTracks) else 0)
      ensures granted ==> snapshot == Some(metrics)
    {
      pendingCamera := pendingCamera - {id};
      if !granted {
        isAnalyzing := false;
        return;
      }
      if streamAttached {
        strayTracks := strayTracks + openTracks;
      }
      streamAttached := true;
      openTracks := tracks;
      StartChangeTracking();
    }

    /**
     * The effect that runs whenever the metrics or the filler count change: while analysing,
     * the alerts are derived afresh from them; otherwise they stay as they are.
     */
    method AlertsEffect()
      requires Valid()
      modifies this`alerts
      ensures Valid()
      ensures isAnalyzing ==> alerts == Alerts(metrics, fillerWords)
      ensures !isAnalyzing ==> alerts == old(alerts)
    {
      if isAnalyzing {
        alerts := GenerateAlerts(metrics, fillerWords);
      }
    }

    /**
     * One tick (100 ms) of the demo generator: fresh metrics `m` in the generator's ranges whose
     * emotion label is entry `emotion` of the label list, and `word`, the index of the demo word
     * drawn, when one is drawn (the source draws one with probability 0.3).
     */
    method MockTick(m: Metrics, emotion: nat, word: Option<nat>)
      requires Valid() && mockTimer && DemoMetrics(m)
      requires emotion < |EmotionLabels| && m.emotion.primaryEmotion == EmotionLabels[emotion]
      requires word.Some? ==> word.value < |DemoWords|
      modifies this`mockElapsed, this`recordingTime, this`metrics, this`speechHistory, this`transcript,
               this`fillerWords, this`heard
      ensures Valid()
      ensures mockElapsed == old(mockElapsed) + 0.1 && recordingTime == mockElapsed
      ensures metrics == m && speechHistory == PushHistory(old(speechHistory), m.voice.speechRate)
      ensures word.None? ==> transcript == old(transcript) && fillerWords == old(fillerWords)
      ensures word.Some? ==> transcript == AppendWord(old(transcript), DemoWords[word.value])
      ensures word.Some? ==> fillerWords == old(fillerWords) + BoolToNat(IsFiller(DemoWords[word.value]))
      ensures word.None? ==> heard == old(heard)
      ensures word.Some? ==> heard == old(heard) + [DemoWords[word.value]]
    {
      Readings(m);
      HearDrawn(word);
    }

    /** The tick's clock and readings; the state `Valid` speaks of is left as it was. */
    method Readings(m: Metrics)
      requires Valid()
      modifies this`mockElapsed, this`recordingTime, this`metrics, this`speechHistory
      ensures Valid()
      ensures mockElapsed == old(mockElapsed) + 0.1 && recordingTime == mockElapsed
      ensures metrics == m && speechHistory == PushHistory(old(speechHistory), m.voice.speechRate)
    {
      AdvanceClock();
      Record(m);
    }

    /** The tick's word, when one was drawn. */
    method HearDrawn(word: Option<nat>)
      requires Valid()
      requires word.Some? ==> word.value < |DemoWords|
      modifies this`transcript, this`fillerWords, this`heard
      ensures Valid()
      ensures word.None? ==> transcript == old(transcript) && fillerWords == old(fillerWords)
      ensures word.Some? ==> transcript == AppendWord(old(transcript), DemoWords[word.value])
      ensures word.Some? ==> fillerWords == old(fillerWords) + BoolToNat(IsFiller(DemoWords[word.value]))
      ensures word.None? ==> heard == old(heard)
      ensures word.Some? ==> heard == old(heard) + [DemoWords[word.value]]
    {
      if word.Some? {
        HearWord(DemoWords[word.value]);
      }
    }

    /** The tick's clock: 100 ms more, shown as the recording time. */
    method AdvanceClock()
      modifies this`mockElapsed, this`recordingTime
      ensures mockElapsed == old(mockElapsed) + 0.1 && recordingTime == mockElapsed
    {
      mockElapsed := mockElapsed + 0.1;
      recordingTime := mockElapsed;
    }

    /** The tick's readings: the fresh metrics, and their speech rate pushed onto the history. */
    method Record(m: Metrics)
      modifies this`metrics, this`speechHistory
      ensures metrics == m && speechHistory == PushHistory(old(speechHistory), m.voice.speechRate)
    {
      metrics := m;
      speechHistory := PushHistory(speechHistory, m.voice.speechRate);
    }

    /** A drawn demo word joins the transcript, and counts when it is a filler. */
    method HearWord(w: string)
      requires Valid()
      modifies this`transcript, this`fillerWords, this`heard
      ensures transcript == AppendWord(old(transcript), w)
      ensures fillerWords == old(fillerWords) + BoolToNat(IsFiller(w))
      ensures heard == old(heard) + [w]
      ensures Valid()
    {
      HeardOneMore(heard, w);
      transcript := AppendWord(transcript, w);
      fillerWords := fillerWords + BoolToNat(IsFiller(w));
      heard := heard + [w];
    }

    /** One camera frame while a stream is attached; `detected` is `None` when detection threw. */
    method FrameTick(detected: Option<(Posture, EmotionReading)>)
      requires Valid() && streamAttached
      modifies this`metrics
      ensures Valid()
      ensures detected.None? ==> metrics == old(metrics)
      ensures detected.Some? ==> metrics == old(metrics).(posture := detected.value.0, emotion := detected.value.1)
    {
      if detected.Some? {
        metrics := metrics.(posture := detected.value.0, emotion := detected.value.1);
      }
    }

    /** A tick of the five-second tracker, comparing the current metrics with the snapshot. */
    method ChangeTick()
      requires Valid() && changeTimer
      modifies this`changePct, this`snapshot
      ensures Valid() && snapshot == Some(metrics)
      ensures old(snapshot).Some? ==> changePct == Deltas(metrics, old(snapshot).value)
      ensures old(snapshot).None? ==> changePct == old(changePct)
    {
      match snapshot
      case None =>
        snapshot := Some(metrics);
      case Some(snap) =>
        changePct := Deltas(metrics, snap);
        snapshot := Some(metrics);
    }

    /** The tracker tick as the source runs it: it reads the metrics it closed over, not the current ones. */
    method ChangeTickAsWritten()
      requires Valid() && changeTimer
      modifies this`changePct, this`snapshot
      ensures Valid() && snapshot == Some(captured)
      ensures old(snapshot).Some? ==> changePct == Deltas(captured, old(snapshot).value)
      ensures old(snapshot).None? ==> changePct == old(changePct)
    {
      match snapshot
      case None =>
        snapshot := Some(captured);
      case Some(snap) =>
        changePct := Deltas(captured, snap);
        snapshot := Some(captured);
    }

    /** The Stop button: every timer cleared, the camera released; readings are kept on screen. */
    method Stop()
      requires Valid()
      modifies this`isAnalyzing, this`session, this`mockTimer, this`mockIntervals, this`snapshot,
               this`changeTimer, this`changeIntervals, this`streamAttached, this`openTracks
      ensures Valid() && !isAnalyzing && session == old(session) + 1
      ensures !mockTimer && mockIntervals == 0 && !changeTimer && changeIntervals == 0 && snapshot == None
      ensures !streamAttached && openTracks == 0
    {
      Halt();
    }

    /** Stop's effect on the lifecycle: the transcript, alerts and readings are not touched. */
    method Halt()
      requires Lifecycle()
      modifies this`isAnalyzing, this`session, this`mockTimer, this`mockIntervals, this`snapshot,
               this`changeTimer, this`changeIntervals, this`streamAttached, this`openTracks
      ensures Lifecycle() && !isAnalyzing && session == old(session) + 1
      ensures !mockTimer && mockIntervals == 0 && !changeTimer && changeIntervals == 0 && snapshot == None
      ensures !streamAttached && openTracks == 0
    {
      isAnalyzing := false;
      session := session + 1;
      StopMock();
      StopChangeTracking();
      if streamAttached {
        openTracks := 0;
        streamAttached := false;
      }
    }
  }

  // ---------------------------------------------------------------------------
  // The two discrepancies, replayed
  // ---------------------------------------------------------------------------

  /** Stop pressed while the camera prompt is open, then permission granted, as the source runs it. */
  method StopDuringCameraPromptAsWritten(tracks: nat) returns (analyzing: bool, liveTracks: nat, trackerRunning: bool)
    ensures !analyzing && liveTracks == tracks && trackerRunning
  {
    var panel := new LiveAnalysis();
    var request := panel.Start(false);
    panel.Stop();
    panel.MediaResolvedAsWritten(request.value, true, tracks);
    analyzing, liveTracks, trackerRunning := panel.isAnalyzing, panel.openTracks, panel.changeTimer;
  }

  /** The same sequence with the corrected settlement: the late stream is discarded. */
  method StopDuringCameraPrompt(tracks: nat) returns (analyzing: bool, liveTracks: nat, trackerRunning: bool)
    ensures !analyzing && liveTracks == 0 && !trackerRunning
  {
    var panel := new LiveAnalysis();
    var request := panel.Start(false);
    panel.Stop();
    panel.MediaResolved(request.value, true, tracks);
    analyzing, liveTracks, trackerRunning := panel.isAnalyzing, panel.openTracks, panel.changeTimer;
  }

  /**
   * A demo run that draws the reading `m` and then reaches the tracker's first tick, as the
   * source runs it: the tracker compares the metrics of the moment it started with themselves.
   */
  method DemoChangeTrackingAsWritten(m: Metrics) returns (shown: ChangePct)
    requires DemoMetrics(m) && m.emotion.primaryEmotion == EmotionLabels[0]
    ensures shown == NoChange
  {
    var panel := new LiveAnalysis();
    var _ := panel.Start(true);
    ghost var start := panel.captured;
    DeltasAgainstSelf(start);
    panel.MockTick(m, 0, None);
    assert panel.snapshot == Some(start) && panel.captured == start;
    panel.ChangeTickAsWritten();
    shown := panel.changePct;
  }

  /** The same run with the corrected tick: it shows the change from the starting metrics to `m`. */
  method DemoChangeTracking(m: Metrics) returns (shown: ChangePct)
    requires DemoMetrics(m) && m.emotion.primaryEmotion == EmotionLabels[0]
    ensures shown == Deltas(m, InitialMetrics)
    ensures shown.backStraightness == m.posture.backStraightness
  {
    var panel := new LiveAnalysis();
    var _ := panel.Start(true);
    assert panel.snapshot == Some(InitialMetrics);
    panel.MockTick(m, 0, None);
    assert panel.snapshot == Some(InitialMetrics) && panel.metrics == m;
    panel.ChangeTick();
    shown := panel.changePct;
    assert shown == Deltas(m, InitialMetrics);
    assert InitialMetrics.posture.backStraightness == 0.0;
    ComputePctFromZero(m.posture.backStraightness);
  }
}
