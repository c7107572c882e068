/** The configuration constants the pipeline reads. */
module Constants {

  /** Minimum classifier confidence for a prediction to count (a value in [0, 1]). */
  const ConfidenceThreshold: real := 0.5

  /** Intended bounds (ms) of a gesture hold; declared but not read by the pipeline. */
  const MinDuration: int := 500
  const MaxDuration: int := 800

  /** Keypoints per hand delivered by the landmark source. */
  const LandmarkCount: nat := 21

  /** Hands the landmark source is asked to track. */
  const MaxHands: nat := 1

  /** The declared constants agree with their documented ranges. */
  lemma ConfigurationConsistent()
    ensures 0.0 <= ConfidenceThreshold <= 1.0
    ensures 0 < MinDuration <= MaxDuration
    ensures 3 * LandmarkCount == 63
    ensures MaxHands == 1
  {
  }
}
