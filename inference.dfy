/**
 * The decision logic of the gesture-inference hook: guard against a missing
 * model or missing landmarks, flatten the landmarks, run the classifier (an
 * abstract function here), take the first maximum of its scores, map the
 * index to a gesture and filter by the confidence threshold.
 */
module Inference {
  import opened Types
  import Constants

  /** A classified frame: the chosen gesture and its score. */
  datatype Prediction = Prediction(gestureId: GestureId, confidence: real)

  /**
   * What one classifier call does with a flattened input: it returns scores,
   * or it throws. A thrown `Error` carries its message; anything else thrown
   * carries none.
   */
  datatype Outcome = Scores(data: seq<real>) | Throws(message: Option<string>)

  /** The classifier: a loaded model maps a flattened input to an outcome. */
  type Classifier = seq<real> -> Outcome

  datatype InferenceStatus = Idle | Loading | Ready | Error

  /** The result of one frame: the prediction and, if the classifier threw, the message to report. */
  datatype Inferred = Inferred(prediction: Option<Prediction>, fault: Option<string>)

  const InferenceFailedMessage: string := "추론 중 오류가 발생했습니다."
  const LoadFailedMessage: string := "모델을 불러오는 중 오류가 발생했습니다."

  /** The flattened input `[x1, y1, z1, x2, y2, z2, ...]`. */
  function Flatten(points: seq<Point>): (flat: seq<real>)
    ensures |flat| == 3 * |points|
    ensures forall i :: 0 <= i < |points| ==>
              flat[3 * i] == points[i].x && flat[3 * i + 1] == points[i].y && flat[3 * i + 2] == points[i].z
  {
    if points == [] then []
    else
      var rest := Flatten(points[1..]);
      assert forall i :: 1 <= i < |points| ==> points[i] == points[1..][i - 1];
      [points[0].x, points[0].y, points[0].z] + rest
  }

  /** A full hand of keypoints gives the classifier's 63 inputs. */
  lemma FullHandFlattensTo63(points: seq<Point>)
    requires |points| == Constants.LandmarkCount
    ensures |Flatten(points)| == 63
  {
  }

  /** `k` is the first index holding the largest score. */
  ghost predicate IsFirstMax(data: seq<real>, k: nat)
  {
    && k < |data|
    && (forall j :: 0 <= j < |data| ==> data[j] <= data[k])
    && (forall j :: 0 <= j < k ==> data[j] < data[k])
  }

  /**
   * The index a left-to-right scan with a strict `>` settles on: the first
   * maximum, or 0 for no scores at all.
   */
  function FirstMax(data: seq<real>): (k: nat)
    ensures data != [] ==> IsFirstMax(data, k)
    ensures data == [] ==> k == 0
    decreases |data|
  {
    if |data| <= 1 then 0
    else
      var front := data[..|data| - 1];
      var k := FirstMax(front);
      assert forall j :: 0 <= j < |front| ==> data[j] == front[j];
      if data[|data| - 1] > data[k] then |data| - 1 else k
  }

  /** At most one index is the first maximum. */
  lemma FirstMaxUnique(data: seq<real>, k1: nat, k2: nat)
    requires IsFirstMax(data, k1) && IsFirstMax(data, k2)
    ensures k1 == k2
  {
    assert data[k1] == data[k2];
  }

  /** The argmax loop over the classifier's scores. */
  method ArgMax(data: seq<real>) returns (maxIdx: nat)
    ensures maxIdx == FirstMax(data)
    ensures data != [] ==> IsFirstMax(data, maxIdx)
  {
    maxIdx := 0;
    var i := 1;
    while i < |data|
      invariant data != [] ==> 1 <= i <= |data| && maxIdx == FirstMax(data[..i])
      invariant data == [] ==> maxIdx == 0
    {
      assert data[..i + 1][..i] == data[..i];
      if data[i] > data[maxIdx] {
        maxIdx := i;
      }
      i := i + 1;
    }
    assert data != [] ==> data[..i] == data;
  }

  /**
   * The score at an index, or 0 when there is none; that fallback is below
   * the threshold, so an index outside the scores never yields a prediction.
   */
  function ScoreAt(data: seq<real>, i: nat): (score: real)
    ensures i < |data| ==> score == data[i]
    ensures i >= |data| ==> score == 0.0 && score < Constants.ConfidenceThreshold
  {
    if i < |data| then data[i] else 0.0
  }

  /**
   * The gesture for a class index: the classifier's outputs follow the
   * declaration order of the gestures, and any other index falls back to KSL_1.
   */
  function LabelAt(i: nat): (g: GestureId)
    ensures i < |AllGestures| ==> g == AllGestures[i]
    ensures i >= |AllGestures| ==> g == KSL_1
  {
    if i < |AllGestures| then AllGestures[i] else KSL_1
  }

  /**
   * Turns the classifier's scores into a prediction: the first maximum, its
   * label, and nothing when that score is below the threshold.
   */
  function Decide(data: seq<real>): (p: Option<Prediction>)
    ensures p.None? <==> forall j :: 0 <= j < |data| ==> data[j] < Constants.ConfidenceThreshold
    ensures data == [] ==> p.None?
    ensures p.Some? ==>
              && Constants.ConfidenceThreshold <= p.value.confidence
              && (forall j :: 0 <= j < |data| ==> data[j] <= p.value.confidence)
              && (exists k: nat :: IsFirstMax(data, k) && data[k] == p.value.confidence && p.value.gestureId == LabelAt(k))
  {
    var maxIdx := FirstMax(data);
    var confidence := ScoreAt(data, maxIdx);
    if confidence < Constants.ConfidenceThreshold then None
    else Some(Prediction(LabelAt(maxIdx), confidence))
  }

  /** On a tie for the highest score the lower index wins, whatever the score. */
  lemma TieGoesToLowerIndex(data: seq<real>, i: nat, j: nat)
    requires i < j < |data| && data[i] == data[j]
    requires forall k :: 0 <= k < |data| ==> data[k] <= data[i]
    ensures FirstMax(data) <= i && FirstMax(data) != j
  {
  }

  /** A tie at or above the threshold is predicted with the label of the lower tied index or an earlier one. */
  lemma TiedPredictionUsesLowerIndex(data: seq<real>, i: nat, j: nat)
    requires i < j < |data| && data[i] == data[j]
    requires forall k :: 0 <= k < |data| ==> data[k] <= data[i]
    requires Constants.ConfidenceThreshold <= data[i]
    ensures Decide(data) == Some(Prediction(LabelAt(FirstMax(data)), data[i]))
    ensures FirstMax(data) <= i
  {
    TieGoesToLowerIndex(data, i, j);
  }

  /**
   * The prediction for one frame. No model or no landmarks: nothing. A thrown
   * classifier call: nothing, plus the message to report.
   */
  function Predict(model: Option<Classifier>, landmarks: Option<seq<Point>>): (r: Inferred)
    ensures model.None? || landmarks.None? ==> r == Inferred(None, None)
    ensures model.Some? && landmarks.Some? && model.value(Flatten(landmarks.value)).Scores? ==>
              r == Inferred(Decide(model.value(Flatten(landmarks.value)).data), None)
    ensures model.Some? && landmarks.Some? && model.value(Flatten(landmarks.value)).Throws? ==>
              r.prediction.None? && r.fault.Some?
    ensures r.fault.Some? ==> r.prediction.None?
    ensures r.prediction.Some? ==> Constants.ConfidenceThreshold <= r.prediction.value.confidence
  {
    if model.None? || landmarks.None? then Inferred(None, None)
    else
      match model.value(Flatten(landmarks.value))
      case Scores(data) => Inferred(Decide(data), None)
      case Throws(message) =>
        Inferred(None, Some(if message.Some? then message.value else InferenceFailedMessage))
  }

  /** A classifier that throws on this input yields no prediction and reports the failure. */
  lemma ThrowingClassifierYieldsNothing(m: Classifier, points: seq<Point>)
    requires m(Flatten(points)).Throws?
    ensures Predict(Some(m), Some(points)).prediction == None
    ensures Predict(Some(m), Some(points)).fault.Some?
  {
  }

  /** The hook's model and status, updated by loading and by failed inference. */
  class GestureInference {
    var model: Option<Classifier>
    var status: InferenceStatus
    var error: Option<string>

    constructor ()
      ensures model == None && status == Idle && error == None
    {
      model := None;
      status := Idle;
      error := None;
    }

    /** Loading begins. */
    method LoadStarted()
      modifies this
      ensures status == Loading
      ensures model == old(model) && error == old(error)
    {
      status := Loading;
    }

    /** The model arrived. */
    method LoadSucceeded(loaded: Classifier)
      modifies this
      ensures model == Some(loaded) && status == Ready
      ensures error == old(error)
    {
      model := Some(loaded);
      status := Ready;
    }

    /** Loading threw; a thrown `Error` supplies the message. */
    method LoadFailed(message: Option<string>)
      modifies this
      ensures error == Some(if message.Some? then message.value else LoadFailedMessage)
      ensures status == Error
      ensures model == old(model)
    {
      error := Some(if message.Some? then message.value else LoadFailedMessage);
      status := Error;
    }

    /** Classifies one frame of landmarks, reporting a throwing classifier instead of propagating it. */
    method Infer(landmarks: Option<seq<Point>>) returns (prediction: Option<Prediction>)
      modifies this
      ensures prediction == Predict(old(model), landmarks).prediction
      ensures model == old(model)
      ensures Predict(old(model), landmarks).fault.Some? ==>
                status == Error && error == Predict(old(model), landmarks).fault
      ensures Predict(old(model), landmarks).fault.None? ==>
                status == old(status) && error == old(error)
    {
      if model.None? || landmarks.None? {
        return None;
      }
      var flat := Flatten(landmarks.value);
      var outcome := model.value(flat);
      match outcome
      case Scores(data) =>
        var maxIdx := ArgMax(data);
        var confidence := ScoreAt(data, maxIdx);
        var gestureId := LabelAt(maxIdx);
        if confidence < Constants.ConfidenceThreshold {
          prediction := None;
        } else {
          prediction := Some(Prediction(gestureId, confidence));
        }
      case Throws(message) =>
        error := Some(if message.Some? then message.value else InferenceFailedMessage);
        status := Error;
        prediction := None;
    }
  }
}
