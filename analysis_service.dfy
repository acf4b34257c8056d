/**
 * The browser-side analysis service: a singleton that loads its detectors once, then turns a
 * detected pose, a face mesh and an audio buffer into the live metrics. The detectors are foreign
 * code; what they return enters here as parameters (a pose count, the landmark lists, the samples).
 */
module AnalysisService {

  import opened JsCommon
  import opened RealTimeMetrics

  // ---------------------------------------------------------------------------
  // Initialisation
  // ---------------------------------------------------------------------------

  /** The steps of `initialize`, in the order it performs them; any of them may throw. */
  datatype InitStep =
    | TfReady
    | CreatePoseDetector
    | CreateFaceDetection
    | ConfigureFaceDetection
    | CreateFaceMesh
    | ConfigureFaceMesh

  function Ordinal(s: InitStep): (n: nat)
    ensures n < 6
  {
    match s
    case TfReady => 0
    case CreatePoseDetector => 1
    case CreateFaceDetection => 2
    case ConfigureFaceDetection => 3
    case CreateFaceMesh => 4
    case ConfigureFaceMesh => 5
  }

  /** Whether a run that fails at `failure` (or not at all) gets past the start of step `s`. */
  predicate Passes(failure: Option<InitStep>, s: InitStep)
  {
    failure.None? || Ordinal(failure.value) > Ordinal(s)
  }

  const PoseNotInitialized := "Pose detector not initialized"
  const NoPoseDetected := "No pose detected"
  const FaceNotInitialized := "Face detectors not initialized"
  const NoFaceDetected := "No face detected"

  class AnalysisService {
    var poseDetector: bool
    var faceDetector: bool
    var faceMesh: bool
    var isInitialized: bool

    /** The service only reports itself initialised once all three detectors exist. */
    ghost predicate Valid()
      reads this
    {
      isInitialized ==> poseDetector && faceDetector && faceMesh
    }

    constructor ()
      ensures Valid() && !isInitialized && !poseDetector && !faceDetector && !faceMesh
    {
      poseDetector := false;
      faceDetector := false;
      faceMesh := false;
      isInitialized := false;
    }

    /**
     * `initialize()`: nothing at all once initialised. Otherwise each detector is stored as soon
     * as it is created, so a failure part-way leaves the earlier detectors in place; the error
     * (the failing step) is rethrown and the service stays uninitialised.
     */
    method Initialize(failure: Option<InitStep>) returns (r: Result<(), InitStep>)
      requires Valid()
      modifies this
      ensures Valid()
      ensures old(isInitialized) ==> r == Ok(()) && unchanged(this)
      ensures !old(isInitialized) ==> (r.Ok? <==> failure.None?) && (r.Err? ==> r == Err(failure.value))
      ensures !old(isInitialized) ==> isInitialized == failure.None?
      ensures !old(isInitialized) ==> poseDetector == (old(poseDetector) || Passes(failure, CreatePoseDetector))
      ensures !old(isInitialized) ==> faceDetector == (old(faceDetector) || Passes(failure, CreateFaceDetection))
      ensures !old(isInitialized) ==> faceMesh == (old(faceMesh) || Passes(failure, CreateFaceMesh))
    {
      if isInitialized {
        return Ok(());
      }
      if !Passes(failure, CreatePoseDetector) {
        return Err(failure.value);
      }
      poseDetector := true;
      if !Passes(failure, CreateFaceDetection) {
        return Err(failure.value);
      }
      faceDetector := true;
      if !Passes(failure, CreateFaceMesh) {
        return Err(failure.value);
      }
      faceMesh := true;
      if !Passes(failure, ConfigureFaceMesh) {
        return Err(failure.value);
      }
      isInitialized := true;
      r := Ok(());
    }

    /** `analyzePose`, given how many poses the detector found: the constant posture stubs. */
    function AnalyzePose(poseCount: nat): (r: Result<Posture, string>)
      reads this`poseDetector
      ensures r.Ok? <==> poseDetector && poseCount > 0
      ensures !poseDetector ==> r == Err(PoseNotInitialized)
      ensures poseDetector && poseCount == 0 ==> r == Err(NoPoseDetected)
      ensures r.Ok? ==> r.value == StubPosture
    {
      if !poseDetector then Err(PoseNotInitialized)
      else if poseCount == 0 then Err(NoPoseDetected)
      else Ok(StubPosture)
    }

    /**
     * `analyzeFacialExpressions`, given the faces the mesh reported: the emotion of the first face,
     * with the confidence rule as the source evaluates it.
     */
    function AnalyzeFacialExpressions(faces: seq<seq<Landmark>>): (r: Result<EmotionReading, string>)
      reads this`faceDetector, this`faceMesh
      requires |faces| > 0 ==> MeshShaped(faces[0])
      ensures r.Ok? <==> faceDetector && faceMesh && |faces| > 0
      ensures !(faceDetector && faceMesh) ==> r == Err(FaceNotInitialized)
      ensures faceDetector && faceMesh && |faces| == 0 ==> r == Err(NoFaceDetected)
      ensures r.Ok? ==> r.value.primaryEmotion in EmotionLabels
      ensures r.Ok? ==> r.value.confidence == FaceConfidence(faces[0])
      ensures r.Ok? ==> r.value.stability == 0.85 && r.value.engagement == 0.9
    {
      if !(faceDetector && faceMesh) then Err(FaceNotInitialized)
      else if |faces| == 0 then Err(NoFaceDetected)
      else
        var scores := LandmarkEmotions(faces[0]);
        Ok(EmotionReading(EmotionLabels[PrimaryIndex(scores)], FaceConfidence(faces[0]), 0.85, 0.9))
    }
  }

  /** Running `initialize` a second time after it succeeded changes nothing and reports success. */
  method InitializeTwice(failure: Option<InitStep>) returns (second: Result<(), InitStep>, ready: bool)
    ensures second == Ok(()) && ready
  {
    var service := new AnalysisService();
    var first := service.Initialize(None);
    second := service.Initialize(failure);
    ready := service.isInitialized;
  }

  // ---------------------------------------------------------------------------
  // Pose and voice stubs
  // ---------------------------------------------------------------------------

  /** `calculateBackStraightness`, `calculateHeadTilt`, `calculateBodyLean`, `calculateStability`. */
  const StubPosture := Posture(85.0, 90.0, 88.0, 92.0)

  /** The result of `analyzeVoice`; `volume` is `None` for `Math.max()` of no samples, -Infinity. */
  datatype VoiceAnalysis = VoiceAnalysis(clarity: real, speechRate: real, tone: real, volume: Option<real>, confidence: real)

  /** `Math.max(...samples.map(Math.abs))`. */
  function MaxAbs(samples: seq<real>): (r: Option<real>)
    ensures r.None? <==> |samples| == 0
    ensures r.Some? ==> forall i :: 0 <= i < |samples| ==> Abs(samples[i]) <= r.value
    ensures r.Some? ==> exists i :: 0 <= i < |samples| && Abs(samples[i]) == r.value
  {
    if |samples| == 0 then None
    else
      var rest := MaxAbs(samples[..|samples| - 1]);
      var last := Abs(samples[|samples| - 1]);
      if rest.Some? && rest.value >= last then rest else Some(last)
  }

  /** `analyzeVoice`: the loudest sample as volume; the other four figures are constants. */
  function AnalyzeVoice(samples: seq<real>): (r: VoiceAnalysis)
    ensures r.volume == MaxAbs(samples)
    ensures r.clarity == 0.8 && r.speechRate == 0.75 && r.tone == 0.9 && r.confidence == 0.85
  {
    VoiceAnalysis(0.8, 0.75, 0.9, MaxAbs(samples), 0.85)
  }

  /** The volume never goes below zero and, once samples exist, it is reached by one of them. */
  lemma VoiceVolumeBounds(samples: seq<real>)
    requires |samples| > 0
    ensures AnalyzeVoice(samples).volume.Some? && AnalyzeVoice(samples).volume.value >= 0.0
  {
    assert Abs(samples[0]) >= 0.0;
  }

  // ---------------------------------------------------------------------------
  // Facial expressions
  // ---------------------------------------------------------------------------

  /** A face-mesh point; `visibility` is optional in the mesh results. */
  datatype Landmark = Landmark(x: real, y: real, z: real, visibility: Option<real>)

  /** Face-mesh results carry the full mesh, so the indices 0, 17, 61 and 291 exist. */
  predicate MeshShaped(landmarks: seq<Landmark>)
  {
    |landmarks| > 291
  }

  /** The mean height of the two mouth corners, measured from the upper lip. */
  function MouthCurvature(landmarks: seq<Landmark>): real
    requires MeshShaped(landmarks)
  {
    (landmarks[61].y + landmarks[291].y) / 2.0 - landmarks[0].y
  }

  /** `analyzeLandmarksForEmotions`: scores in label order neutral, happy, sad, angry, surprised. */
  function LandmarkEmotions(landmarks: seq<Landmark>): (r: seq<real>)
    requires MeshShaped(landmarks)
    ensures |r| == |EmotionLabels| && r[2] == 0.0 && r[3] == 0.0 && r[4] == 0.0
    ensures MouthCurvature(landmarks) > 0.1 ==> r[0] == 0.2 && r[1] == 0.8
    ensures MouthCurvature(landmarks) <= 0.1 ==> r[0] == 0.5 && r[1] == 0.0
  {
    if MouthCurvature(landmarks) > 0.1 then [0.2, 0.8, 0.0, 0.0, 0.0] else [0.5, 0.0, 0.0, 0.0, 0.0]
  }

  /**
   * `Object.entries(emotions).reduce((a, b) => a[1] > b[1] ? a : b)`: the entry with the largest
   * score; because the comparison is strict, of several equal largest scores the last one wins.
   */
  function PrimaryIndex(scores: seq<real>): (r: nat)
    requires |scores| >= 1
    ensures r < |scores|
    ensures forall i :: 0 <= i < |scores| ==> scores[i] <= scores[r]
    ensures forall i :: r < i < |scores| ==> scores[i] < scores[r]
  {
    if |scores| == 1 then 0
    else
      var k := PrimaryIndex(scores[..|scores| - 1]);
      if scores[k] > scores[|scores| - 1] then k else |scores| - 1
  }

  /** Of two entries with equal, largest score, the earlier one is never chosen. */
  lemma TiesGoToTheLater(scores: seq<real>, i: nat, j: nat)
    requires i < j < |scores| && scores[i] == scores[j]
    ensures PrimaryIndex(scores) != i
  {
  }

  /** A smile (curvature above 0.1) reads as happy; anything else reads as neutral. */
  lemma LandmarkPrimaryEmotion(landmarks: seq<Landmark>)
    requires MeshShaped(landmarks)
    ensures PrimaryIndex(LandmarkEmotions(landmarks)) == (if MouthCurvature(landmarks) > 0.1 then 1 else 0)
  {
    var scores := LandmarkEmotions(landmarks);
    var r := PrimaryIndex(scores);
    if MouthCurvature(landmarks) > 0.1 {
      assert scores[r] >= scores[1];
    } else {
      assert scores[r] >= scores[0];
    }
  }

  /** The confidence test as the source evaluates it: `visibility ?? (1 > 0.9)`, taken as a truth value. */
  predicate CountsAsVisibleAsWritten(p: Landmark)
  {
    p.visibility.None? || Truthy(p.visibility.value)
  }

  /** The test evidently meant: `(visibility ?? 1) > 0.9`. */
  predicate CountsAsVisible(p: Landmark)
  {
    (if p.visibility.Some? then p.visibility.value else 1.0) > 0.9
  }

  function FaceConfidenceAsWritten(points: seq<Landmark>): (r: real)
    ensures r == 0.95 <==> exists i :: 0 <= i < |points| && CountsAsVisibleAsWritten(points[i])
    ensures r == 0.95 || r == 0.7
  {
    if exists i :: 0 <= i < |points| && CountsAsVisibleAsWritten(points[i]) then 0.95 else 0.7
  }

  function FaceConfidence(points: seq<Landmark>): (r: real)
    ensures r == 0.95 <==> exists i :: 0 <= i < |points| && CountsAsVisible(points[i])
    ensures r == 0.95 || r == 0.7
  {
    if exists i :: 0 <= i < |points| && CountsAsVisible(points[i]) then 0.95 else 0.7
  }

  /** A mesh whose points are all half visible gets the high confidence as written, the low one as meant. */
  lemma HalfVisibleMesh(points: seq<Landmark>)
    requires |points| > 0
    requires forall i :: 0 <= i < |points| ==> points[i].visibility == Some(0.5)
    ensures FaceConfidenceAsWritten(points) == 0.95
    ensures FaceConfidence(points) == 0.7
  {
    assert CountsAsVisibleAsWritten(points[0]);
    forall i | 0 <= i < |points|
      ensures !CountsAsVisible(points[i])
    {
    }
  }

  /** The written test accepts every point the intended one accepts, and more. */
  lemma WrittenTestIsLooser(p: Landmark)
    ensures CountsAsVisible(p) ==> CountsAsVisibleAsWritten(p)
  {
  }
}
