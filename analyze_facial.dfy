/**
 * The facial-analysis edge function: request dispatch and validation, then eye-contact,
 * engagement and confidence scores, the dominant emotions, a tally of gestures by type,
 * body-language scoring and paired immediate/long-term recommendations.
 */
module AnalyzeFacial {

  import opened JsCommon

  datatype HeadPose = HeadPose(pitch: real, yaw: real, roll: real)

  /** The seven emotion scores, in the key order of the request object. */
  datatype Emotions = Emotions(neutral: real, happy: real, sad: real, angry: real,
                               surprised: real, fearful: real, disgusted: real)

  datatype BodyPose = BodyPose(shoulders: seq<seq<real>>, arms: seq<seq<real>>, hands: seq<seq<real>>, posture: real)

  /** A detected gesture; the request calls its label `type`. */
  datatype Gesture = Gesture(kind: string, confidence: real, duration: real)

  /** The well-typed request payload. */
  datatype FacialData = FacialData(eyeContact: real, smileScore: real, headPose: HeadPose,
                                   landmarks: seq<seq<real>>, emotions: Emotions,
                                   bodyPose: BodyPose, gestures: seq<Gesture>)

  /**
   * The `facialData` member of the body as received: `None` for a field that is missing,
   * for `eyeContact`/`smileScore` one that is not a number, for `landmarks`/`gestures` one
   * that is not an array.
   */
  datatype RawFacialData = RawFacialData(eyeContact: Option<real>, smileScore: Option<real>,
                                         headPose: Option<HeadPose>, landmarks: Option<seq<seq<real>>>,
                                         emotions: Option<Emotions>, bodyPose: Option<BodyPose>,
                                         gestures: Option<seq<Gesture>>)

  // ------------------------------------------------------------ validation

  /** `validateFacialData`: the two numbers, the three objects and the two arrays are present. */
  predicate ValidFacialData(d: RawFacialData)
  {
    d.eyeContact.Some? && d.smileScore.Some? && d.headPose.Some? && d.landmarks.Some? &&
    d.emotions.Some? && d.bodyPose.Some? && d.gestures.Some?
  }

  /** The typed payload of a validated body. */
  function Validated(d: RawFacialData): (f: FacialData)
    requires ValidFacialData(d)
    ensures f.eyeContact == d.eyeContact.value && f.smileScore == d.smileScore.value
    ensures f.landmarks == d.landmarks.value && f.gestures == d.gestures.value
    ensures f.headPose == d.headPose.value && f.emotions == d.emotions.value && f.bodyPose == d.bodyPose.value
  {
    FacialData(d.eyeContact.value, d.smileScore.value, d.headPose.value, d.landmarks.value,
               d.emotions.value, d.bodyPose.value, d.gestures.value)
  }

  // ------------------------------------------------------------ landmarks

  /** Every landmark row has the same, non-zero number of coordinates. */
  predicate Rectangular(rows: seq<seq<real>>)
  {
    forall i :: 0 <= i < |rows| ==> |rows[i]| >= 1 && |rows[i]| == |rows[0]|
  }

  /** Some coordinate changes by exactly `d` between the two rows. */
  predicate MaxAttained(prev: seq<real>, cur: seq<real>, d: real)
    requires |prev| == |cur|
  {
    exists k :: 0 <= k < |cur| && Abs(cur[k] - prev[k]) == d
  }

  /** The largest coordinate change between two consecutive landmark rows. */
  function MaxChange(prev: seq<real>, cur: seq<real>): (d: real)
    requires |cur| >= 1 && |prev| == |cur|
    ensures d >= 0.0
    ensures forall k :: 0 <= k < |cur| ==> Abs(cur[k] - prev[k]) <= d
    ensures MaxAttained(prev, cur, d)
  {
    var diffs := seq(|cur|, k requires 0 <= k < |cur| => Abs(cur[k] - prev[k]));
    assert forall k :: 0 <= k < |cur| ==> diffs[k] == Abs(cur[k] - prev[k]);
    MaxOf(diffs)
  }

  /** The changes between each row and the one before it, for the first `n` rows. */
  function Changes(rows: seq<seq<real>>, n: nat): (r: seq<real>)
    requires Rectangular(rows) && 1 <= n <= |rows|
    ensures |r| == n - 1
    ensures forall k :: 0 <= k < |r| ==> r[k] >= 0.0
  {
    if n == 1 then [] else Changes(rows, n - 1) + [MaxChange(rows[n - 2], rows[n - 1])]
  }

  /** The mean change between consecutive landmark rows; 0 for fewer than two rows. */
  function Variance(rows: seq<seq<real>>): (v: real)
    requires Rectangular(rows)
    ensures v >= 0.0
    ensures |rows| < 2 ==> v == 0.0
    ensures |rows| >= 2 ==> v == Sum(Changes(rows, |rows|)) / (|rows| - 1) as real
  {
    if |rows| < 2 then 0.0
    else
      var total := Sum(Changes(rows, |rows|));
      QuotientNonNegative(total, (|rows| - 1) as real);
      total / (|rows| - 1) as real
  }

  lemma QuotientNonNegative(a: real, b: real)
    requires a >= 0.0 && b > 0.0
    ensures a / b >= 0.0
  {
  }


  /** `calculateLandmarkVariance`: the differences are pushed in a loop, then averaged. */
  method LandmarkVariance(rows: seq<seq<real>>) returns (v: real)
    requires Rectangular(rows)
    ensures v == Variance(rows)
    ensures v >= 0.0
  {
    if |rows| < 2 {
      return 0.0;
    }
    var differences: seq<real> := [];
    var total := 0.0;
    for i := 1 to |rows|
      invariant differences == Changes(rows, i)
      invariant total == Sum(differences)
    {
      var d := MaxChange(rows[i - 1], rows[i]);
      differences := differences + [d];
      assert differences[..|differences| - 1] == Changes(rows, i);
      total := total + d;
    }
    assert |differences| == |rows| - 1;
    v := total / |differences| as real;
  }

  /** A face that does not move between rows has no variance. */
  lemma {:induction false} StillFaceNoVariance(rows: seq<seq<real>>, n: nat)
    requires Rectangular(rows) && 1 <= n <= |rows|
    requires forall i :: 0 <= i < |rows| ==> rows[i] == rows[0]
    ensures Sum(Changes(rows, n)) == 0.0
  {
    if n > 1 {
      StillFaceNoVariance(rows, n - 1);
      var d := MaxChange(rows[n - 2], rows[n - 1]);
      var diffs := seq(|rows[n - 1]|, k requires 0 <= k < |rows[n - 1]| => Abs(rows[n - 1][k] - rows[n - 2][k]));
      assert diffs[0] == 0.0;
      assert forall k :: 0 <= k < |diffs| ==> diffs[k] == 0.0;
      assert d == 0.0;
      var c := Changes(rows, n);
      assert c[..|c| - 1] == Changes(rows, n - 1);
    }
  }

  /** Movement lowers engagement two points per unit of variance, within 0..100. */
  function MovementScore(rows: seq<seq<real>>): (r: real)
    requires Rectangular(rows)
    ensures 0.0 <= r <= 100.0
    ensures Variance(rows) == 0.0 ==> r == 100.0
  {
    Clamp(0.0, 100.0, 100.0 - Variance(rows) * 2.0)
  }

  /** Movement lowers stability three points per unit of variance, within 0..100. */
  function StabilityScore(rows: seq<seq<real>>): (r: real)
    requires Rectangular(rows)
    ensures 0.0 <= r <= 100.0
    ensures Variance(rows) == 0.0 ==> r == 100.0
    ensures r <= MovementScore(rows)
  {
    Clamp(0.0, 100.0, 100.0 - Variance(rows) * 3.0)
  }

  // ------------------------------------------------------------ body pose

  /** Shoulder alignment: ten points off per unit of height difference; 0 without two points. */
  function Alignment(points: seq<seq<real>>): (r: real)
    requires |points| >= 2 ==> |points[0]| >= 2 && |points[1]| >= 2
    ensures 0.0 <= r <= 100.0
    ensures |points| < 2 ==> r == 0.0
    ensures |points| >= 2 && points[0][1] == points[1][1] ==> r == 100.0
  {
    if |points| < 2 then 0.0
    else Clamp(0.0, 100.0, 100.0 - Abs(points[0][1] - points[1][1]) * 10.0)
  }

  /** Arm openness: ten points per unit of horizontal distance; 0 without two points. */
  function ArmPosition(arms: seq<seq<real>>): (r: real)
    requires |arms| >= 2 ==> |arms[0]| >= 1 && |arms[1]| >= 1
    ensures 0.0 <= r <= 100.0
    ensures |arms| < 2 ==> r == 0.0
    ensures |arms| >= 2 && Abs(arms[0][0] - arms[1][0]) >= 10.0 ==> r == 100.0
  {
    if |arms| < 2 then 0.0
    else Clamp(0.0, 100.0, Abs(arms[0][0] - arms[1][0]) * 10.0)
  }

  predicate PoseShaped(b: BodyPose)
  {
    (|b.shoulders| >= 2 ==> |b.shoulders[0]| >= 2 && |b.shoulders[1]| >= 2) &&
    (|b.arms| >= 2 ==> |b.arms[0]| >= 1 && |b.arms[1]| >= 1)
  }

  function BodyConfidence(b: BodyPose): (r: int)
    requires PoseShaped(b)
    ensures 0 <= r <= 100
  {
    Round(Alignment(b.shoulders) * 0.6 + ArmPosition(b.arms) * 0.4)
  }

  // ------------------------------------------------------------ the three scores

  /** Gaze (clamped) 70%, head turn and nod 30%; always within 0..100. */
  function EyeContactScore(eyeContact: real, pose: HeadPose): (r: int)
    ensures 0 <= r <= 100
    ensures eyeContact >= 1.0 && pose.yaw == 0.0 && pose.pitch == 0.0 ==> r == 100
    ensures eyeContact <= 0.0 && Abs(pose.yaw) + Abs(pose.pitch) >= 50.0 ==> r == 0
  {
    var gaze := Clamp(0.0, 100.0, eyeContact * 100.0);
    var poseImpact := Max(0.0, 100.0 - (Abs(pose.yaw) + Abs(pose.pitch)) * 2.0);
    Round(gaze * 0.7 + poseImpact * 0.3)
  }

  /** Positive less negative emotions, scaled to 0..100 and clamped. */
  function EmotionalEngagement(e: Emotions): (r: real)
    ensures 0.0 <= r <= 100.0
  {
    var positive := e.happy + e.surprised;
    var negative := e.sad + e.angry + e.fearful + e.disgusted;
    Clamp(0.0, 100.0, (positive - negative) * 100.0)
  }

  /** Smile (clamped) 40%, steadiness 30%, emotional engagement 30%. */
  function EngagementScore(smileScore: real, landmarks: seq<seq<real>>, e: Emotions): (r: int)
    requires Rectangular(landmarks)
    ensures 0 <= r <= 100
  {
    var expression := Clamp(0.0, 100.0, smileScore * 100.0);
    Round(expression * 0.4 + MovementScore(landmarks) * 0.3 + EmotionalEngagement(e) * 0.3)
  }

  /** Head roll 30%, stability 30%, body confidence 40%. */
  function ConfidenceScore(pose: HeadPose, landmarks: seq<seq<real>>, b: BodyPose): (r: int)
    requires Rectangular(landmarks) && PoseShaped(b)
    ensures 0 <= r <= 100
  {
    var posture := Max(0.0, 100.0 - Abs(pose.roll) * 3.0);
    Round(posture * 0.3 + StabilityScore(landmarks) * 0.3 + BodyConfidence(b) as real * 0.4)
  }

  // ------------------------------------------------------------ emotional state

  /** `Object.entries(emotions)`. */
  function Entries(e: Emotions): (r: seq<(string, real)>)
    ensures |r| == 7
  {
    [("neutral", e.neutral), ("happy", e.happy), ("sad", e.sad), ("angry", e.angry),
     ("surprised", e.surprised), ("fearful", e.fearful), ("disgusted", e.disgusted)]
  }

  predicate Descending(s: seq<(string, real)>)
  {
    forall i, j :: 0 <= i < j < |s| ==> s[i].1 >= s[j].1
  }

  /** Places `x` after every entry whose score is at least its own. */
  function InsertDescending(x: (string, real), s: seq<(string, real)>): (r: seq<(string, real)>)
    ensures |r| == |s| + 1
  {
    if s == [] then [x]
    else if s[0].1 >= x.1 then [s[0]] + InsertDescending(x, s[1..])
    else [x] + s
  }

  /** Insertion adds exactly `x`. */
  lemma {:induction false} InsertAdds(x: (string, real), s: seq<(string, real)>)
    ensures multiset(InsertDescending(x, s)) == multiset(s) + multiset{x}
  {
    if s != [] && s[0].1 >= x.1 {
      InsertAdds(x, s[1..]);
      assert s == [s[0]] + s[1..];
    }
  }

  /** Inserting into a descending list keeps it descending. */
  lemma {:induction false} InsertKeepsOrder(x: (string, real), s: seq<(string, real)>)
    requires Descending(s)
    ensures Descending(InsertDescending(x, s))
  {
    if s != [] && s[0].1 >= x.1 {
      var rest := InsertDescending(x, s[1..]);
      InsertKeepsOrder(x, s[1..]);
      HeadAtLeastInserted(x, s);
      ConsDescending(s[0], rest);
    }
  }

  /** The head of a descending list that scores at least `x` scores at least everything after it once `x` is inserted. */
  lemma HeadAtLeastInserted(x: (string, real), s: seq<(string, real)>)
    requires Descending(s) && s != [] && s[0].1 >= x.1
    ensures forall k :: 0 <= k < |InsertDescending(x, s[1..])| ==> s[0].1 >= InsertDescending(x, s[1..])[k].1
  {
    var rest := InsertDescending(x, s[1..]);
    InsertAdds(x, s[1..]);
    forall k | 0 <= k < |rest|
      ensures s[0].1 >= rest[k].1
    {
      assert rest[k] in multiset(rest);
      if rest[k] != x {
        assert rest[k] in multiset(s[1..]);
        var j :| 0 <= j < |s[1..]| && s[1..][j] == rest[k];
        assert s[j + 1] == rest[k];
      }
    }
  }

  lemma ConsDescending(h: (string, real), rest: seq<(string, real)>)
    requires Descending(rest) && forall k :: 0 <= k < |rest| ==> h.1 >= rest[k].1
    ensures Descending([h] + rest)
  {
    var r := [h] + rest;
    forall i, j | 0 <= i < j < |r|
      ensures r[i].1 >= r[j].1
    {
      if i > 0 {
        assert r[i] == rest[i - 1] && r[j] == rest[j - 1];
      } else {
        assert r[j] == rest[j - 1];
      }
    }
  }

  /**
   * The stable sort by descending score that `sort((a, b) => b - a)` performs: each entry is
   * inserted after the earlier entries that score at least as much.
   */
  function SortDescending(s: seq<(string, real)>): (r: seq<(string, real)>)
    ensures Descending(r)
    ensures multiset(r) == multiset(s)
    ensures |r| == |s|
  {
    if s == [] then []
    else
      var n := |s| - 1;
      assert s == s[..n] + [s[n]];
      InsertKeepsOrder(s[n], SortDescending(s[..n]));
      InsertAdds(s[n], SortDescending(s[..n]));
      InsertDescending(s[n], SortDescending(s[..n]))
  }

  /** The head of the sorted list is an entry of the input and scores at least as much as every entry. */
  lemma SortedHead(s: seq<(string, real)>)
    requires |s| >= 1
    ensures SortDescending(s)[0] in s
    ensures forall k :: 0 <= k < |s| ==> s[k].1 <= SortDescending(s)[0].1
  {
    var sorted := SortDescending(s);
    assert sorted[0] in multiset(sorted);
    forall k | 0 <= k < |s|
      ensures s[k].1 <= sorted[0].1
    {
      assert s[k] in multiset(s);
      assert s[k] in multiset(sorted);
      var j :| 0 <= j < |sorted| && sorted[j] == s[k];
    }
  }

  datatype EmotionalState = EmotionalState(primary: string, secondary: string, intensity: int)

  /** The top two entries after the descending sort; intensity is the top score as a percentage. */
  function TopTwo(entries: seq<(string, real)>): (r: EmotionalState)
    requires |entries| >= 2
  {
    var sorted := SortDescending(entries);
    EmotionalState(sorted[0].0, sorted[1].0, Round(sorted[0].1 * 100.0))
  }

  /** `analyzeEmotionalState`. */
  function EmotionalStateOf(e: Emotions): EmotionalState
  {
    TopTwo(Entries(e))
  }

  /** The primary emotion is a highest-scoring entry, and the intensity is its score in percent. */
  lemma TopTwoPrimary(entries: seq<(string, real)>)
    requires |entries| >= 2
    ensures exists k :: (0 <= k < |entries| && entries[k].0 == TopTwo(entries).primary &&
                         TopTwo(entries).intensity == Round(entries[k].1 * 100.0) &&
                         forall j :: 0 <= j < |entries| ==> entries[j].1 <= entries[k].1)
  {
    var sorted := SortDescending(entries);
    SortedHead(entries);
    var k :| 0 <= k < |entries| && entries[k] == sorted[0];
  }

  /** The secondary emotion is an entry scoring no more than the primary one. */
  lemma TopTwoSecondary(entries: seq<(string, real)>)
    requires |entries| >= 2
    ensures exists k :: (0 <= k < |entries| && entries[k].0 == TopTwo(entries).secondary &&
                         entries[k].1 <= SortDescending(entries)[0].1)
  {
    var sorted := SortDescending(entries);
    assert sorted[1] in multiset(entries) by {
      assert sorted[1] in multiset(sorted);
    }
    var k :| 0 <= k < |entries| && entries[k] == sorted[1];
  }

  // ------------------------------------------------------------ gestures

  /** The running count and confidence total kept per gesture type. */
  datatype Tally = Tally(kind: string, count: nat, totalConfidence: real)

  /** The `GestureMap` lookup: the position of a type among the entries, if present. */
  function Find(entries: seq<Tally>, kind: string): (r: Option<nat>)
    ensures r.Some? ==> r.value < |entries| && entries[r.value].kind == kind
    ensures r.None? ==> forall i :: 0 <= i < |entries| ==> entries[i].kind != kind
  {
    if entries == [] then None
    else if entries[|entries| - 1].kind == kind then Some(|entries| - 1)
    else Find(entries[..|entries| - 1], kind)
  }

  /** One gesture counted: an existing type keeps its place, a new type goes last. */
  function Record(entries: seq<Tally>, g: Gesture): seq<Tally>
  {
    match Find(entries, g.kind)
    case None => entries + [Tally(g.kind, 1, g.confidence)]
    case Some(i) => entries[i := Tally(g.kind, entries[i].count + 1, entries[i].totalConfidence + g.confidence)]
  }

  /** The map after counting every gesture in order. */
  function TallyOf(gestures: seq<Gesture>): seq<Tally>
  {
    if gestures == [] then []
    else Record(TallyOf(gestures[..|gestures| - 1]), gestures[|gestures| - 1])
  }

  /** The gesture types in first-seen order, each once. */
  function FirstSeen(gestures: seq<Gesture>): seq<string>
  {
    if gestures == [] then []
    else
      var before := FirstSeen(gestures[..|gestures| - 1]);
      var k := gestures[|gestures| - 1].kind;
      if k in before then before else before + [k]
  }

  function Kinds(entries: seq<Tally>): (r: seq<string>)
    ensures |r| == |entries|
    ensures forall i :: 0 <= i < |entries| ==> r[i] == entries[i].kind
  {
    seq(|entries|, i requires 0 <= i < |entries| => entries[i].kind)
  }

  function TotalCount(entries: seq<Tally>): nat
  {
    if entries == [] then 0 else TotalCount(entries[..|entries| - 1]) + entries[|entries| - 1].count
  }

  lemma {:induction false} TotalCountUpdate(entries: seq<Tally>, i: nat, t: Tally)
    requires i < |entries|
    ensures TotalCount(entries[i := t]) == TotalCount(entries) - entries[i].count + t.count
  {
    var n := |entries| - 1;
    if i < n {
      TotalCountUpdate(entries[..n], i, t);
      assert entries[i := t][..n] == entries[..n][i := t];
    } else {
      assert entries[i := t][..n] == entries[..n];
    }
  }

  /** Counting one gesture adds its type at the end when it is new and keeps the types otherwise. */
  lemma RecordKinds(entries: seq<Tally>, g: Gesture)
    ensures Kinds(Record(entries, g)) == if g.kind in Kinds(entries) then Kinds(entries) else Kinds(entries) + [g.kind]
  {
    match Find(entries, g.kind)
    case None =>
      assert g.kind !in Kinds(entries);
      assert Kinds(entries + [Tally(g.kind, 1, g.confidence)]) == Kinds(entries) + [g.kind];
    case Some(i) =>
      assert Kinds(entries)[i] == g.kind;
      var t := Tally(g.kind, entries[i].count + 1, entries[i].totalConfidence + g.confidence);
      assert Kinds(entries[i := t]) == Kinds(entries);
  }

  /** Counting one gesture raises the total count by one and keeps every count positive. */
  lemma RecordCounts(entries: seq<Tally>, g: Gesture)
    requires forall i :: 0 <= i < |entries| ==> entries[i].count >= 1
    ensures TotalCount(Record(entries, g)) == TotalCount(entries) + 1
    ensures forall i :: 0 <= i < |Record(entries, g)| ==> Record(entries, g)[i].count >= 1
  {
    match Find(entries, g.kind)
    case None =>
      var after := entries + [Tally(g.kind, 1, g.confidence)];
      assert Record(entries, g) == after;
      assert after[..|after| - 1] == entries;
      assert TotalCount(after) == TotalCount(entries) + 1;
    case Some(i) =>
      var t := Tally(g.kind, entries[i].count + 1, entries[i].totalConfidence + g.confidence);
      assert Record(entries, g) == entries[i := t];
      TotalCountUpdate(entries, i, t);
  }

  /**
   * One entry per distinct type, in first-seen order, every count at least 1, and the
   * counts add up to the number of gestures.
   */
  lemma {:induction false} TallyShape(gestures: seq<Gesture>)
    ensures Kinds(TallyOf(gestures)) == FirstSeen(gestures)
    ensures forall i :: 0 <= i < |TallyOf(gestures)| ==> TallyOf(gestures)[i].count >= 1
    ensures TotalCount(TallyOf(gestures)) == |gestures|
  {
    if gestures != [] {
      var n := |gestures| - 1;
      TallyShape(gestures[..n]);
      RecordKinds(TallyOf(gestures[..n]), gestures[n]);
      RecordCounts(TallyOf(gestures[..n]), gestures[n]);
    }
  }

  lemma {:induction false} FirstSeenDistinct(gestures: seq<Gesture>)
    ensures forall i, j :: 0 <= i < j < |FirstSeen(gestures)| ==> FirstSeen(gestures)[i] != FirstSeen(gestures)[j]
    ensures forall k :: 0 <= k < |gestures| ==> gestures[k].kind in FirstSeen(gestures)
  {
    if gestures != [] {
      var n := |gestures| - 1;
      FirstSeenDistinct(gestures[..n]);
      forall k | 0 <= k < n
        ensures gestures[k].kind in FirstSeen(gestures)
      {
        assert gestures[..n][k] == gestures[k];
      }
    }
  }

  /** The number of gestures of a type. */
  function CountOf(gestures: seq<Gesture>, kind: string): nat
  {
    if gestures == [] then 0
    else CountOf(gestures[..|gestures| - 1], kind) + (if gestures[|gestures| - 1].kind == kind then 1 else 0)
  }

  /** The summed confidence of the gestures of a type. */
  function ConfidenceOf(gestures: seq<Gesture>, kind: string): real
  {
    if gestures == [] then 0.0
    else ConfidenceOf(gestures[..|gestures| - 1], kind) +
         (if gestures[|gestures| - 1].kind == kind then gestures[|gestures| - 1].confidence else 0.0)
  }

  /** No two entries of the map share a type. */
  predicate DistinctKinds(entries: seq<Tally>)
  {
    forall a, b :: 0 <= a < b < |entries| ==> entries[a].kind != entries[b].kind
  }

  lemma TallyDistinct(gestures: seq<Gesture>)
    ensures DistinctKinds(TallyOf(gestures))
  {
    TallyShape(gestures);
    FirstSeenDistinct(gestures);
    var e := TallyOf(gestures);
    forall a, b | 0 <= a < b < |e|
      ensures e[a].kind != e[b].kind
    {
      assert Kinds(e)[a] == e[a].kind && Kinds(e)[b] == e[b].kind;
    }
  }

  /** Every entry of the map holds exactly its type's count and confidence total. */
  ghost predicate Tallies(entries: seq<Tally>, gestures: seq<Gesture>)
  {
    (forall i :: 0 <= i < |entries| ==>
       entries[i].count == CountOf(gestures, entries[i].kind) &&
       entries[i].totalConfidence == ConfidenceOf(gestures, entries[i].kind)) &&
    (forall k :: k !in Kinds(entries) ==> CountOf(gestures, k) == 0 && ConfidenceOf(gestures, k) == 0.0)
  }

  /**
   * The map is exact: each type's entry counts the gestures of that type and sums their
   * confidences, and a type without an entry has no gestures.
   */
  lemma {:induction false} TallyCounts(gestures: seq<Gesture>)
    ensures Tallies(TallyOf(gestures), gestures)
  {
    if gestures != [] {
      var n := |gestures| - 1;
      var p, g := gestures[..n], gestures[n];
      TallyCounts(p);
      TallyDistinct(p);
      var e := TallyOf(p);
      assert gestures == p + [g];
      assert TallyOf(gestures) == Record(e, g);
      RecordKinds(e, g);
      RecordStep(e, p, g, gestures);
    }
  }

  /** One counted gesture keeps the map exact. */
  lemma RecordStep(e: seq<Tally>, p: seq<Gesture>, g: Gesture, gestures: seq<Gesture>)
    requires gestures == p + [g] && Tallies(e, p) && DistinctKinds(e)
    requires Kinds(Record(e, g)) == if g.kind in Kinds(e) then Kinds(e) else Kinds(e) + [g.kind]
    ensures Tallies(Record(e, g), gestures)
  {
    assert gestures[..|gestures| - 1] == p;
    assert forall k :: CountOf(gestures, k) == CountOf(p, k) + (if g.kind == k then 1 else 0);
    assert forall k :: ConfidenceOf(gestures, k) == ConfidenceOf(p, k) + (if g.kind == k then g.confidence else 0.0);
    var after := Record(e, g);
    match Find(e, g.kind)
    case None =>
      assert g.kind !in Kinds(e);
      forall i | 0 <= i < |after|
        ensures after[i].count == CountOf(gestures, after[i].kind)
        ensures after[i].totalConfidence == ConfidenceOf(gestures, after[i].kind)
      {
        if i < |e| {
          assert after[i] == e[i] && Kinds(e)[i] == e[i].kind;
        }
      }
    case Some(j) =>
      forall i | 0 <= i < |after|
        ensures after[i].count == CountOf(gestures, after[i].kind)
        ensures after[i].totalConfidence == ConfidenceOf(gestures, after[i].kind)
      {
        if i != j {
          assert after[i] == e[i] && e[i].kind != e[j].kind;
        }
      }
      assert Kinds(e)[j] == g.kind;
  }

  datatype GestureSummary = GestureSummary(kind: string, frequency: nat, appropriateness: int)

  function TotalFrequency(r: seq<GestureSummary>): nat
  {
    if r == [] then 0 else TotalFrequency(r[..|r| - 1]) + r[|r| - 1].frequency
  }

  lemma {:induction false} SummariesTotal(entries: seq<Tally>)
    requires forall i :: 0 <= i < |entries| ==> entries[i].count >= 1
    ensures TotalFrequency(Summaries(entries)) == TotalCount(entries)
  {
    if entries != [] {
      var n := |entries| - 1;
      SummariesTotal(entries[..n]);
      assert Summaries(entries)[..n] == Summaries(entries[..n]);
    }
  }

  /** `Array.from(map.entries()).map(...)`: frequency and rounded mean confidence per type. */
  function Summaries(entries: seq<Tally>): (r: seq<GestureSummary>)
    requires forall i :: 0 <= i < |entries| ==> entries[i].count >= 1
    ensures |r| == |entries|
    ensures forall i :: 0 <= i < |entries| ==>
      r[i] == GestureSummary(entries[i].kind, entries[i].count,
                             Round(entries[i].totalConfidence / entries[i].count as real * 100.0))
  {
    seq(|entries|, i requires 0 <= i < |entries| =>
      GestureSummary(entries[i].kind, entries[i].count,
                     Round(entries[i].totalConfidence / entries[i].count as real * 100.0)))
  }

  /** The per-type summary of the gestures. */
  function GestureAnalysis(gestures: seq<Gesture>): (r: seq<GestureSummary>)
    ensures |r| == |FirstSeen(gestures)|
    ensures forall i :: 0 <= i < |r| ==> r[i].kind == FirstSeen(gestures)[i] && r[i].frequency >= 1
    ensures ExactSummaries(r, gestures)
    ensures TotalFrequency(r) == |gestures|
  {
    TallyShape(gestures);
    SummariesExact(gestures);
    SummariesTotal(TallyOf(gestures));
    Summaries(TallyOf(gestures))
  }

  lemma SummariesExact(gestures: seq<Gesture>)
    ensures forall i :: 0 <= i < |TallyOf(gestures)| ==> TallyOf(gestures)[i].count >= 1
    ensures ExactSummaries(Summaries(TallyOf(gestures)), gestures)
  {
    TallyShape(gestures);
    TallyCounts(gestures);
    var e := TallyOf(gestures);
    SummaryOfExact(e, gestures);
  }

  lemma SummaryOfExact(e: seq<Tally>, gestures: seq<Gesture>)
    requires forall i :: 0 <= i < |e| ==> e[i].count >= 1
    requires Tallies(e, gestures)
    ensures ExactSummaries(Summaries(e), gestures)
  {
    var r := Summaries(e);
    forall i | 0 <= i < |r|
      ensures r[i].frequency == CountOf(gestures, r[i].kind) && CountOf(gestures, r[i].kind) >= 1
      ensures r[i].appropriateness == Round(ConfidenceOf(gestures, r[i].kind) / CountOf(gestures, r[i].kind) as real * 100.0)
    {
      var t := e[i];
      assert t.count == CountOf(gestures, t.kind) && t.totalConfidence == ConfidenceOf(gestures, t.kind);
      assert r[i] == GestureSummary(t.kind, t.count, Round(t.totalConfidence / t.count as real * 100.0));
    }
  }

  /** Each summary gives its type's number of gestures and their rounded mean confidence in percent. */
  predicate ExactSummaries(r: seq<GestureSummary>, gestures: seq<Gesture>)
  {
    forall i :: 0 <= i < |r| ==>
      r[i].frequency == CountOf(gestures, r[i].kind) && CountOf(gestures, r[i].kind) >= 1 &&
      r[i].appropriateness == Round(ConfidenceOf(gestures, r[i].kind) / CountOf(gestures, r[i].kind) as real * 100.0)
  }

  /** `analyzeGestures`: the map is filled in a loop over the gestures, then read out. */
  method AnalyzeGestures(gestures: seq<Gesture>) returns (r: seq<GestureSummary>)
    ensures r == GestureAnalysis(gestures)
  {
    var entries: seq<Tally> := [];
    for i := 0 to |gestures|
      invariant entries == TallyOf(gestures[..i])
    {
      var g := gestures[i];
      assert gestures[..i + 1][..i] == gestures[..i];
      var existing := Find(entries, g.kind);
      match existing
      case None =>
        entries := entries + [Tally(g.kind, 1, g.confidence)];
      case Some(j) =>
        entries := entries[j := Tally(g.kind, entries[j].count + 1, entries[j].totalConfidence + g.confidence)];
    }
    assert gestures[..|gestures|] == gestures;
    TallyShape(gestures);
    r := Summaries(entries);
  }

  // ------------------------------------------------------------ body language

  /**
   * Posture 60%, mean gesture appropriateness 40%. With no gestures the mean is 0/0, so the
   * result is NaN, written `None`.
   */
  function OverallBodyLanguage(posture: real, gestures: seq<GestureSummary>): (r: Option<int>)
    ensures r.None? <==> gestures == []
  {
    if gestures == [] then None
    else
      var mean := SumAppropriateness(gestures) as real / |gestures| as real;
      Some(Round(posture * 0.6 + mean * 0.4))
  }

  function SumAppropriateness(gestures: seq<GestureSummary>): int
  {
    if gestures == [] then 0
    else SumAppropriateness(gestures[..|gestures| - 1]) + gestures[|gestures| - 1].appropriateness
  }

  datatype BodyLanguage = BodyLanguage(posture: real, gestures: seq<GestureSummary>, overall: Option<int>)

  function BodyLanguageOf(b: BodyPose, gestures: seq<Gesture>): BodyLanguage
  {
    var summary := GestureAnalysis(gestures);
    BodyLanguage(b.posture, summary, OverallBodyLanguage(b.posture, summary))
  }

  // ------------------------------------------------------------ recommendations

  const ImmediateEyeContact := "Try to maintain more consistent eye contact with the camera."
  const LongTermEyeContact := "Practice maintaining eye contact in front of a mirror or with friends."
  const ImmediateEngagement := "Show more engagement through natural facial expressions and gestures."
  const LongTermEngagement := "Record yourself speaking and analyze your engagement patterns."
  const ImmediateConfidence := "Work on your posture and head position."
  const LongTermConfidence := "Practice power poses before interviews to boost confidence."
  const ImmediateBodyLanguage := "Be mindful of your gestures and body posture."
  const LongTermBodyLanguage := "Take a public speaking or body language workshop."
  const ImmediateEmotion := "Try to maintain a more balanced emotional expression."
  const LongTermEmotion := "Practice emotional regulation techniques before interviews."

  /** A NaN overall score compares false, so it asks for no body-language advice. */
  predicate BodyLanguageLow(overall: Option<int>)
  {
    overall.Some? && overall.value < 70
  }

  /** The (immediate, long-term) pairs whose condition holds, in rule order. */
  function AdvicePairs(eyeContact: int, engagement: int, confidence: int, overall: Option<int>, intensity: int): (r: seq<(string, string)>)
    ensures |r| <= 5
  {
    When(eyeContact < 70, (ImmediateEyeContact, LongTermEyeContact)) +
    When(engagement < 70, (ImmediateEngagement, LongTermEngagement)) +
    When(confidence < 70, (ImmediateConfidence, LongTermConfidence)) +
    When(BodyLanguageLow(overall), (ImmediateBodyLanguage, LongTermBodyLanguage)) +
    When(intensity > 80, (ImmediateEmotion, LongTermEmotion))
  }

  /** The two lists hold the first and the second halves of the same pairs. */
  predicate Lockstep(immediate: seq<string>, longTerm: seq<string>, pairs: seq<(string, string)>)
  {
    |immediate| == |longTerm| == |pairs| && forall k :: 0 <= k < |pairs| ==> pairs[k] == (immediate[k], longTerm[k])
  }

  lemma PushBoth(immediate: seq<string>, longTerm: seq<string>, pairs: seq<(string, string)>, a: string, b: string)
    requires Lockstep(immediate, longTerm, pairs)
    ensures Lockstep(immediate + [a], longTerm + [b], pairs + [(a, b)])
  {
  }

  /** Pushes into the two lists under the same five conditions, so they grow in lockstep. */
  method GenerateRecommendations(eyeContact: int, engagement: int, confidence: int, overall: Option<int>, intensity: int)
    returns (immediate: seq<string>, longTerm: seq<string>)
    ensures Lockstep(immediate, longTerm, AdvicePairs(eyeContact, engagement, confidence, overall, intensity))
    ensures |immediate| == |longTerm| <= 5
  {
    immediate, longTerm := [], [];
    ghost var pairs: seq<(string, string)> := [];
    if eyeContact < 70 {
      PushBoth(immediate, longTerm, pairs, ImmediateEyeContact, LongTermEyeContact);
      immediate, longTerm := immediate + [ImmediateEyeContact], longTerm + [LongTermEyeContact];
      pairs := pairs + [(ImmediateEyeContact, LongTermEyeContact)];
    }
    assert pairs == When(eyeContact < 70, (ImmediateEyeContact, LongTermEyeContact));
    if engagement < 70 {
      PushBoth(immediate, longTerm, pairs, ImmediateEngagement, LongTermEngagement);
      immediate, longTerm := immediate + [ImmediateEngagement], longTerm + [LongTermEngagement];
      pairs := pairs + [(ImmediateEngagement, LongTermEngagement)];
    }
    assert pairs == When(eyeContact < 70, (ImmediateEyeContact, LongTermEyeContact)) +
                    When(engagement < 70, (ImmediateEngagement, LongTermEngagement));
    if confidence < 70 {
      PushBoth(immediate, longTerm, pairs, ImmediateConfidence, LongTermConfidence);
      immediate, longTerm := immediate + [ImmediateConfidence], longTerm + [LongTermConfidence];
      pairs := pairs + [(ImmediateConfidence, LongTermConfidence)];
    }
    assert pairs == When(eyeContact < 70, (ImmediateEyeContact, LongTermEyeContact)) +
                    When(engagement < 70, (ImmediateEngagement, LongTermEngagement)) +
                    When(confidence < 70, (ImmediateConfidence, LongTermConfidence));
    if BodyLanguageLow(overall) {
      PushBoth(immediate, longTerm, pairs, ImmediateBodyLanguage, LongTermBodyLanguage);
      immediate, longTerm := immediate + [ImmediateBodyLanguage], longTerm + [LongTermBodyLanguage];
      pairs := pairs + [(ImmediateBodyLanguage, LongTermBodyLanguage)];
    }
    assert pairs == When(eyeContact < 70, (ImmediateEyeContact, LongTermEyeContact)) +
                    When(engagement < 70, (ImmediateEngagement, LongTermEngagement)) +
                    When(confidence < 70, (ImmediateConfidence, LongTermConfidence)) +
                    When(BodyLanguageLow(overall), (ImmediateBodyLanguage, LongTermBodyLanguage));
    if intensity > 80 {
      PushBoth(immediate, longTerm, pairs, ImmediateEmotion, LongTermEmotion);
      immediate, longTerm := immediate + [ImmediateEmotion], longTerm + [LongTermEmotion];
      pairs := pairs + [(ImmediateEmotion, LongTermEmotion)];
    }
    assert pairs == AdvicePairs(eyeContact, engagement, confidence, overall, intensity);
  }

  /** The two recommendation lists: the first and the second halves of the selected pairs. */
  function Advice(eyeContact: int, engagement: int, confidence: int, overall: Option<int>, intensity: int): (r: (seq<string>, seq<string>))
    ensures |r.0| == |r.1| <= 5
  {
    var pairs := AdvicePairs(eyeContact, engagement, confidence, overall, intensity);
    (seq(|pairs|, k requires 0 <= k < |pairs| => pairs[k].0), seq(|pairs|, k requires 0 <= k < |pairs| => pairs[k].1))
  }

  /** No gestures at all never produce body-language advice, whatever the posture. */
  lemma NoGesturesNoBodyAdvice(b: BodyPose)
    ensures BodyLanguageOf(b, []).overall.None?
    ensures !BodyLanguageLow(BodyLanguageOf(b, []).overall)
  {
    assert FirstSeen([]) == [];
  }

  // ------------------------------------------------------------ the rest of the response

  datatype Performance = Performance(communication: int, presence: int, professionalism: int)

  /** The fixed-weight performance figures; verbal clarity is the constant 75. */
  function PerformanceOf(d: FacialData): Performance
  {
    var nonVerbal := Round(d.bodyPose.posture * 0.6 + d.eyeContact * 0.4);
    var physical := Round(d.bodyPose.posture * 0.7 + d.headPose.roll * 0.3);
    var emotional := Round(d.smileScore * 0.5 + d.eyeContact * 0.5);
    var appearance := Round(d.bodyPose.posture * 0.8 + d.headPose.roll * 0.2);
    var behaviour := Round(d.eyeContact * 0.6 + d.smileScore * 0.4);
    Performance(Round(75.0 * 0.5 + nonVerbal as real * 0.5),
                Round(physical as real * 0.5 + emotional as real * 0.5),
                Round(appearance as real * 0.4 + behaviour as real * 0.6))
  }

  /** A three-point trend derived from one value. */
  function Trend(value: real): seq<real>
  {
    [value, value * 0.95, value * 0.9]
  }

  datatype FacialAnalysis = FacialAnalysis(
    confidence: int, engagement: int, eyeContact: int,
    emotionalState: EmotionalState, bodyLanguage: BodyLanguage, performance: Performance,
    immediate: seq<string>, longTerm: seq<string>,
    eyeContactTrend: seq<real>, engagementTrend: seq<real>, confidenceTrend: seq<real>)

  /** Landmark rows and body-pose points carry the coordinates the scorers read. */
  predicate Shaped(d: FacialData)
  {
    Rectangular(d.landmarks) && PoseShaped(d.bodyPose)
  }

  /** `processAnalysis`. */
  function ProcessAnalysis(d: FacialData): (r: FacialAnalysis)
    requires Shaped(d)
    ensures 0 <= r.eyeContact <= 100 && 0 <= r.engagement <= 100 && 0 <= r.confidence <= 100
    ensures |r.immediate| == |r.longTerm| <= 5
  {
    var eye := EyeContactScore(d.eyeContact, d.headPose);
    var engagement := EngagementScore(d.smileScore, d.landmarks, d.emotions);
    var confidence := ConfidenceScore(d.headPose, d.landmarks, d.bodyPose);
    var state := EmotionalStateOf(d.emotions);
    var body := BodyLanguageOf(d.bodyPose, d.gestures);
    var advice := Advice(eye, engagement, confidence, body.overall, state.intensity);
    FacialAnalysis(confidence, engagement, eye, state, body, PerformanceOf(d), advice.0, advice.1,
                   Trend(d.eyeContact), Trend(d.smileScore), Trend(d.bodyPose.posture))
  }

  // ------------------------------------------------------------ dispatch

  /** The body as `req.json()` sees it: unparsable (with the parser's message) or an object. */
  datatype RequestBody = Unparsable(parseError: string) | Parsed(facialData: Option<RawFacialData>)

  datatype Reply =
    | Preflight
    | MethodNotAllowed
    | BadRequest(details: string)
    | Analysed(payload: FacialData)

  function Status(r: Reply): nat
  {
    match r
    case Preflight => 204
    case MethodNotAllowed => 405
    case BadRequest(_) => 400
    case Analysed(_) => 200
  }

  const InvalidFormat := "Invalid facial data format"

  predicate Accepted(body: RequestBody)
  {
    body.Parsed? && body.facialData.Some? && ValidFacialData(body.facialData.value)
  }

  /**
   * The request handler: preflight, then method check, then body check. A 200 reply carries the
   * typed payload; its response body is `ProcessAnalysis` of that payload.
   */
  function Handle(httpMethod: HttpMethod, body: RequestBody): (r: Reply)
    ensures httpMethod == Options ==> Status(r) == 204
    ensures httpMethod != Options && httpMethod != Post ==> Status(r) == 405
    ensures httpMethod == Post && !Accepted(body) ==> Status(r) == 400
    ensures httpMethod == Post && body.Parsed? && !Accepted(body) ==> r == BadRequest(InvalidFormat)
    ensures Status(r) == 200 <==> httpMethod == Post && Accepted(body)
    ensures r.Analysed? ==> r.payload == Validated(body.facialData.value)
  {
    if httpMethod == Options then Preflight
    else if httpMethod != Post then MethodNotAllowed
    else match body
      case Unparsable(e) => BadRequest(e)
      case Parsed(d) =>
        if d.None? || !ValidFacialData(d.value) then BadRequest(InvalidFormat)
        else Analysed(Validated(d.value))
  }
}
