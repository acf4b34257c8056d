/**
 * The live metrics snapshot shared by the analysis component and the browser-side
 * analysis service: posture figures on a 0..100 scale, emotion and voice figures on 0..1.
 */
module RealTimeMetrics {

  datatype Posture = Posture(backStraightness: real, headTilt: real, bodyLean: real, stability: real)

  datatype EmotionReading = EmotionReading(primaryEmotion: string, confidence: real, stability: real, engagement: real)

  datatype Voice = Voice(clarity: real, speechRate: real, tone: real, volume: real, confidence: real)

  datatype Metrics = Metrics(posture: Posture, emotion: EmotionReading, voice: Voice)

  /** The metrics the component starts from: every figure 0, emotion "neutral". */
  const InitialMetrics: Metrics :=
    Metrics(Posture(0.0, 0.0, 0.0, 0.0),
            EmotionReading("neutral", 0.0, 0.0, 0.0),
            Voice(0.0, 0.0, 0.0, 0.0, 0.0))

  /** The five emotion labels the browser-side classifier and the demo generator use. */
  const EmotionLabels: seq<string> := ["neutral", "happy", "sad", "angry", "surprised"]
}
