/**
 * The status line of the app component: a priority chain over the stream's
 * and the model's error messages and statuses.
 */
module Status {
  import opened Types
  import Hands
  import Inference

  const StreamErrorPrefix: string := "스트림 오류: "
  const ModelErrorPrefix: string := "모델 오류: "
  const CameraStarting: string := "웹캠 초기화 중..."
  const Recognizing: string := "실시간 인식 중"
  const ModelLoading: string := "모델 불러오는 중..."
  const Preparing: string := "준비 중"

  /** An error message counts when present and non-empty (the empty string is falsy). */
  predicate Truthy(error: Option<string>)
  {
    error.Some? && error.value != ""
  }

  /**
   * The status line shown over the video: a truthy stream error first, then
   * a truthy model error, and only without either one of the four fixed
   * status texts.
   */
  function StatusMessage(streamError: Option<string>, inferenceError: Option<string>,
                         stream: Hands.StreamStatus, inference: Inference.InferenceStatus): (m: string)
    ensures Truthy(streamError) ==> m == StreamErrorPrefix + streamError.value
    ensures !Truthy(streamError) && Truthy(inferenceError) ==> m == ModelErrorPrefix + inferenceError.value
    ensures !Truthy(streamError) && !Truthy(inferenceError) ==>
              m == CameraStarting || m == Recognizing || m == ModelLoading || m == Preparing
  {
    if Truthy(streamError) then StreamErrorPrefix + streamError.value
    else if Truthy(inferenceError) then ModelErrorPrefix + inferenceError.value
    else if stream == Hands.Loading then CameraStarting
    else if stream == Hands.Streaming && inference == Inference.Ready then Recognizing
    else if inference == Inference.Loading then ModelLoading
    else Preparing
  }

  /** The six kinds of message can be told apart by their first three characters. */
  lemma MessagesDistinct(x: string, y: string)
    ensures (StreamErrorPrefix + x)[..3] == "스트림"
    ensures (ModelErrorPrefix + y)[..3] == "모델 "
    ensures CameraStarting[..3] == "웹캠 "
    ensures Recognizing[..3] == "실시간"
    ensures ModelLoading[..3] == "모델 " && ModelLoading[3] == '불'
    ensures (ModelErrorPrefix + y)[3] == '오'
    ensures Preparing[..3] == "준비 "
  {
    assert (StreamErrorPrefix + x)[..3] == StreamErrorPrefix[..3];
    assert (ModelErrorPrefix + y)[..3] == ModelErrorPrefix[..3];
  }

  /** The message is "웹캠 초기화 중..." exactly when there is no error and the camera is starting. */
  lemma CameraStartingExactly(streamError: Option<string>, inferenceError: Option<string>,
                              stream: Hands.StreamStatus, inference: Inference.InferenceStatus)
    ensures StatusMessage(streamError, inferenceError, stream, inference) == CameraStarting
        <==> !Truthy(streamError) && !Truthy(inferenceError) && stream == Hands.Loading
  {
    var m := StatusMessage(streamError, inferenceError, stream, inference);
    MessagesDistinct(if streamError.Some? then streamError.value else "",
                     if inferenceError.Some? then inferenceError.value else "");
    assert m == CameraStarting ==> m[..3] == "웹캠 ";
  }

  /**
   * The message is "실시간 인식 중" exactly when there is no error and the
   * camera streams while the model is ready.
   */
  lemma RecognizingExactly(streamError: Option<string>, inferenceError: Option<string>,
                           stream: Hands.StreamStatus, inference: Inference.InferenceStatus)
    ensures StatusMessage(streamError, inferenceError, stream, inference) == Recognizing
        <==> !Truthy(streamError) && !Truthy(inferenceError)
             && stream == Hands.Streaming && inference == Inference.Ready
  {
    var m := StatusMessage(streamError, inferenceError, stream, inference);
    MessagesDistinct(if streamError.Some? then streamError.value else "",
                     if inferenceError.Some? then inferenceError.value else "");
    assert m == Recognizing ==> m[..3] == "실시간";
  }

  /**
   * The message is "모델 불러오는 중..." exactly when no earlier rule applies
   * and the model is loading.
   */
  lemma ModelLoadingExactly(streamError: Option<string>, inferenceError: Option<string>,
                            stream: Hands.StreamStatus, inference: Inference.InferenceStatus)
    ensures StatusMessage(streamError, inferenceError, stream, inference) == ModelLoading
        <==> !Truthy(streamError) && !Truthy(inferenceError) && stream != Hands.Loading
             && inference == Inference.Loading
  {
    var m := StatusMessage(streamError, inferenceError, stream, inference);
    MessagesDistinct(if streamError.Some? then streamError.value else "",
                     if inferenceError.Some? then inferenceError.value else "");
    assert m == ModelLoading ==> m[..3] == "모델 " && m[3] == '불';
  }

  /** The message is "준비 중" exactly when none of the five earlier rules applies. */
  lemma PreparingExactly(streamError: Option<string>, inferenceError: Option<string>,
                         stream: Hands.StreamStatus, inference: Inference.InferenceStatus)
    ensures StatusMessage(streamError, inferenceError, stream, inference) == Preparing
        <==> && !Truthy(streamError) && !Truthy(inferenceError) && stream != Hands.Loading
             && !(stream == Hands.Streaming && inference == Inference.Ready)
             && inference != Inference.Loading
  {
    var m := StatusMessage(streamError, inferenceError, stream, inference);
    MessagesDistinct(if streamError.Some? then streamError.value else "",
                     if inferenceError.Some? then inferenceError.value else "");
    assert m == Preparing ==> m[..3] == "준비 ";
  }
}
