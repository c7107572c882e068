# HandSpeak translator core, modelled in Dafny

The translator reads a camera stream and extracts 21 hand keypoints per frame.
A small classifier scores five Korean Sign Language gestures (the numerals
일, 이, 삼, 사, 오) from those keypoints. The app turns the resulting stream
of per-frame predictions into a list of committed tokens that the user can
undo, reset and read as text.

This project models the decision logic of that pipeline:

- `Types` (types.dfy): the five-value gesture enumeration, the
  gesture-to-text table, the token record and the keypoint.
- `Constants` (constants.dfy): the confidence threshold, the duration bounds,
  the keypoint count and the hand count.
- `Hands` (hands.dfy): the landmark hook's results callback. It counts frames,
  forwards every `processEvery`-th one, publishes a copy of the first hand (or
  nothing) with the frame time, and does nothing once its effect run is
  stopped. It is the class `HandsCallback`.
- `Inference` (inference.dfy): the inference hook's per-frame decision. It has
  null guards, flattening, the argmax loop (first maximum wins), index-to-label
  lookup with the `KSL_1` fallback, the threshold filter and the
  throwing-classifier path. The classifier is an abstract function from the
  flattened input to scores or a thrown error. The hook's model, status and
  error form the class `GestureInference`.
- `Ledger` (ledger.dfy): the app's token list and id counter, as the class
  `TokenLedger` with `Commit`, `Undo`, `Reset` and `DisplayText`. Beside it,
  the same ledger as a value (`LedgerState`, `CommitStep`, `UndoStep`,
  `ResetStep`), which lets the lemmas speak about whole streams of predictions
  and user actions (`Run`, `Replay`).
- `Status` (status.dfy): the app's status-line priority chain.

Inputs from outside become parameters: the clock reading (`now`), the
classifier (`Classifier`) and the landmark source's per-frame results.
Confidences and coordinates are `real`.

Three behaviours of the code differ from what its declarations might suggest, and the model follows the code:

- Commits happen on the first qualifying frame of a new gesture. The declared
  minimum and maximum hold durations are not used.
- A confidence above 1 is not treated as malformed: the code only tests
  `confidence < threshold`.
- An error message that is the empty string is falsy, so the status line skips it.

## Model

| member | source | states |
|---|---|---|
| Types.Text | src/types/index.ts:19-25 | the gesture-to-text table is total; each text is one character with no space |
| Types.GestureOfText | src/types/index.ts:19-25 | reading a text back gives a gesture whose text it is, or nothing when no gesture has that text |
| Types.GestureOfTextInvertsText | src/types/index.ts:19-25 | every gesture's text reads back as that gesture |
| Types.TextInjective | src/types/index.ts:20-24 | the five texts are pairwise distinct, so the text determines the gesture |
| Types.ExactlyFiveGestures | src/types/index.ts:4 | the gesture enumeration has exactly the five values KSL_1 to KSL_5, each once |
| Constants.ConfigurationConsistent | src/utils/constants.ts:6-29 | the threshold lies in [0, 1]; MIN_DURATION <= MAX_DURATION; 21 keypoints give 63 inputs; one hand is tracked |
| Inference.Flatten | src/hooks/useGestureInference.ts:76 | flattening n points gives 3n numbers, with x, y, z of point i at 3i, 3i+1, 3i+2 |
| Inference.FullHandFlattensTo63 | src/hooks/useGestureInference.ts:76 | a full hand of LANDMARK_COUNT points gives the classifier 63 inputs |
| Inference.FirstMax | src/hooks/useGestureInference.ts:126-129 | the scan settles on an index holding the largest score, with every earlier score strictly smaller; 0 for no scores |
| Inference.FirstMaxUnique | src/hooks/useGestureInference.ts:126-129 | the first maximum is unique, so the scan's result is fully determined |
| Inference.ArgMax | src/hooks/useGestureInference.ts:126-129 | the loop returns the first index of the largest score (0 when empty) |
| Inference.TieGoesToLowerIndex | src/hooks/useGestureInference.ts:128 | on any tie for the top score, above or below the threshold, the scan never moves to the later tied index, because the comparison is strict |
| Inference.TiedPredictionUsesLowerIndex | src/hooks/useGestureInference.ts:128-141 | a tie at or above the threshold is predicted with the tied score and the label of the first maximum, which is at or before the lower tied index |
| Inference.ScoreAt | src/hooks/useGestureInference.ts:130 | the score at the chosen index; with no score there `?? 0` gives 0, which is below the threshold and so never yields a prediction |
| Inference.LabelAt | src/hooks/useGestureInference.ts:131 | index i below 5 maps to the i-th gesture of the enumeration (KSL_1 to KSL_5 in order); any other index falls back to KSL_1 |
| Inference.Decide | src/hooks/useGestureInference.ts:130-141 | no prediction exactly when every score is below the threshold (so empty output gives none); otherwise the top score with the label of its first index, at or above the threshold |
| Inference.Predict | src/hooks/useGestureInference.ts:70-149 | a missing model or missing landmarks gives no prediction and no fault; when the classifier returns scores for the flattened landmarks, the result is Decide of those scores with no fault; when it throws, no prediction and a fault; an emitted prediction is at or above the threshold |
| Inference.ThrowingClassifierYieldsNothing | src/hooks/useGestureInference.ts:142-149 | a classifier that throws leads to no prediction and a reported fault rather than propagating |
| Inference.GestureInference.constructor | src/hooks/useGestureInference.ts:31-33 | the hook starts with no model, status idle and no error |
| Inference.GestureInference.LoadStarted | src/hooks/useGestureInference.ts:40 | loading sets the status to loading and changes nothing else |
| Inference.GestureInference.LoadSucceeded | src/hooks/useGestureInference.ts:51-52 | a loaded model is stored and the status becomes ready |
| Inference.GestureInference.LoadFailed | src/hooks/useGestureInference.ts:55-60 | a failed load stores the thrown message (or the default one) and sets the status to error |
| Inference.GestureInference.Infer | src/hooks/useGestureInference.ts:70-154 | the per-frame prediction equals Predict; a throwing classifier sets status error and the message; otherwise status and error are unchanged |
| Hands.Forwarded | src/hooks/useMediaPipeHands.ts:57-59 | a processEvery of 0 forwards nothing (the remainder is NaN); 1 or -1 forwards every frame; otherwise a frame is forwarded exactly when it is a multiple of processEvery |
| Hands.ForwardedCountIsQuotient | src/hooks/useMediaPipeHands.ts:57-59 | with processEvery = e >= 1, exactly n / e of the first n frames are forwarded |
| Hands.DefaultForwardsEveryFrame | src/hooks/useMediaPipeHands.ts:58-59 | with the default processEvery of 1, every frame is forwarded |
| Hands.CopyHand | src/hooks/useMediaPipeHands.ts:62-68 | the published copy has the same length and order, with x, y, z copied unchanged |
| Hands.FirstHand | src/hooks/useMediaPipeHands.ts:61-71 | a forwarded frame publishes the copy of the first hand when at least one is reported, and nothing otherwise |
| Hands.OnlyFirstHandConsumed | src/hooks/useMediaPipeHands.ts:61 | with MAX_HANDS hands reported, what is published is the copy of the first one |
| Hands.HandsCallback.constructor | src/hooks/useMediaPipeHands.ts:36-37 | each effect run starts live with its counter at 0; processEvery defaults to 1 |
| Hands.HandsCallback.OnResults | src/hooks/useMediaPipeHands.ts:55-73 | once stopped nothing changes, not even the counter; otherwise the counter rises by one and only a forwarded frame updates the keypoints (first-hand copy or nothing) and the timestamp |
| Hands.HandsCallback.Stop | src/hooks/useMediaPipeHands.ts:98 | cleanup marks the run stopped and changes nothing else |
| Hands.HandsCallback.PublishedIsQuotient | src/hooks/useMediaPipeHands.ts:56-59 | a run with processEvery >= 1 has published frameCount / processEvery frames |
| Ledger.Qualifies | src/App.tsx:27-29 | only a present prediction passes the gate, and a present one passes exactly when its confidence is at or above the threshold |
| Ledger.PredictionsPassCommitGate | src/App.tsx:27-29 | every prediction the inference hook emits also passes the commit effect's own threshold gate |
| Ledger.CommitStep | src/App.tsx:26-46 | a commit only appends, adds at most one token, and consumes an id exactly when it adds one; it adds one exactly when the prediction passes the gate and differs from the last gesture; the new token has the old counter as id, the table's text and the prediction's confidence |
| Ledger.UndoStep | src/App.tsx:53-55 | undo removes exactly the last token, is a no-op on an empty list, and keeps the counter |
| Ledger.ResetStep | src/App.tsx:57-59 | reset always gives the empty list and keeps the counter |
| Ledger.CommitPreservesWellFormed | src/App.tsx:31-44 | a commit keeps ids increasing and below the counter, texts from the table, and no adjacent repeated gesture |
| Ledger.UndoPreservesWellFormed | src/App.tsx:53-55 | undo keeps the ledger invariant |
| Ledger.ResetPreservesWellFormed | src/App.tsx:57-59 | reset keeps the ledger invariant |
| Ledger.ReplayPreservesWellFormed | src/App.tsx:26-59 | every ledger reached through any mix of commits, undos and resets satisfies the invariant |
| Ledger.IssuedIdsStrictlyIncrease | src/App.tsx:21-59 | the counter never goes down, even across undo and reset; the ids handed out are strictly increasing, so none is handed out twice |
| Ledger.RunOnlyAppends | src/App.tsx:31-44 | a stream of predictions keeps the earlier tokens and appends tokens with consecutive ids starting at the old counter |
| Ledger.RunIgnoresAbsent | src/App.tsx:27 | absent predictions anywhere in a stream change nothing, including the repeat check |
| Ledger.RunCommitsCollapsed | src/App.tsx:26-46 | the committed gestures are the qualifying gestures with immediate repeats removed, the first compared with the last token already there |
| Ledger.HeldGestureCommitsOnce | src/App.tsx:31-33 | a held gesture, however many frames long, commits exactly one token (the first), or none if it repeats the last token |
| Ledger.BelowGateCommitsNothing | src/App.tsx:27-29 | absent or below-threshold predictions never commit, however many there are |
| Ledger.ScenarioCommitsABC | src/App.tsx:26-46 | (a,.9),(a,.9),(b,.9),(b,.3),(c,.9) commits exactly a, b, c with ids counter, counter+1, counter+2 |
| Ledger.Join | src/App.tsx:49 | joining no texts gives ""; the result begins with the first text; with space-free texts it holds a space exactly when there are at least two |
| Ledger.RecognizedText | src/App.tsx:48-51 | no tokens show ""; when no token text holds a space, splitting the shown text on ' ' gives the token texts back in order |
| Ledger.SplitJoin | src/App.tsx:49 | splitting a space-joined non-empty list of space-free texts on ' ' gives the list back |
| Ledger.RecognizedTextRoundTrip | src/App.tsx:48-51 | splitting the display text of a non-empty ledger on ' ' gives the token texts in order, each reading back as its token's gesture |
| Ledger.RecognizedTextExamples | src/App.tsx:48-51 | the empty list shows ""; tokens 일 and 이 show "일 이" |
| Ledger.TokenLedger.constructor | src/App.tsx:20-21 | the ledger starts empty with the counter at 1 |
| Ledger.TokenLedger.Commit | src/App.tsx:26-46 | follows CommitStep: below the gate or a repeat, nothing changes; otherwise one token with the old counter as id is appended, the counter rises by one, and that id was never issued before |
| Ledger.TokenLedger.Undo | src/App.tsx:53-55 | drops the last token (nothing on empty) and keeps the counter and the invariant |
| Ledger.TokenLedger.Reset | src/App.tsx:57-59 | empties the list, keeps the counter and the invariant |
| Ledger.TokenLedger.DisplayText | src/App.tsx:48-51 | "" for no tokens; otherwise splitting the text on ' ' gives the tokens' texts in order, each naming its token's gesture |
| Status.StatusMessage | src/App.tsx:69-76 | a truthy stream error wins over everything; otherwise a truthy model error wins over every status; without either the message is one of the four fixed status texts |
| Status.CameraStartingExactly | src/App.tsx:72 | the camera-starting message shows exactly when there is no error and the stream is loading |
| Status.RecognizingExactly | src/App.tsx:73 | the recognising message shows exactly when there is no error, the stream is streaming and the model is ready |
| Status.ModelLoadingExactly | src/App.tsx:74 | the model-loading message shows exactly when there is no error, the stream is not loading and the model is loading |
| Status.PreparingExactly | src/App.tsx:75 | "준비 중" shows exactly when none of the five earlier rules applies |

## Left out

- Camera and landmark-source plumbing is not modelled: constructing the hand tracker, its options, the camera, sending frames, start, stop and close (src/hooks/useMediaPipeHands.ts:39-54, 75-100). It is device I/O and foreign library code. The source's per-frame results are a parameter of `OnResults`.
- Model fetching and tensor handling are not modelled: the HTTP loader, tensors, `predict`, `dataSync` and `dispose`. The loaded model is an abstract `Classifier` function. Only the status and error effects of loading are kept (`LoadStarted`, `LoadSucceeded`, `LoadFailed`). The `cancelled` guard on a load that finishes after unmount is not modelled.
- Input statistics, console logging and the inference timing (`inferenceMs`) are not modelled. They are floating-point diagnostics and do not affect the prediction.
- IEEE-754 behaviour (NaN scores or coordinates, rounding) is not modelled: numbers are exact `real`s.
- `processEvery` is an integer. Fractional values are not modelled; the option selector only offers 1, 2 and 3.
- The FPS moving average, the metrics text, the overlay drawing, clipboard copy, the option handlers and the rendered markup are presentation only.
- PERFORMANCE_CONFIG is declared but never read, and so is not modelled. MIN_DURATION and MAX_DURATION appear only as constants: no duration-based debounce exists in the code.
- React scheduling is not modelled (effects firing on identity change, memo recomputation, batching of state updates). The pipeline is one sequential stream: `Run` over predictions and `Replay` over predictions and user actions.
- Hook state that outlives an effect run (the published keypoints and timestamp) is passed into `HandsCallback`'s constructor rather than shared between runs.
- The stream status transitions of the landmark hook (loading, streaming, error at src/hooks/useMediaPipeHands.ts:41, 89, 93-94) are not modelled. They follow camera start-up, which is I/O. `Status` takes the stream status as an input.
