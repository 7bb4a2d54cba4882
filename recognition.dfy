/**
 * The per-frame glue of static/scripts/mediapipe.js between the detector
 * results and the controller: the per-hand entries of `gestureRecognition`,
 * the face result of `eyeFocusRecognition`, and the way both are handed to
 * `YTPlayerController`.
 */
module Recognition {
  import opened Wrappers
  import opened Fingers
  import opened Focus
  import opened Controller

  /**
   * One detected hand: the top gesture category, the top handedness label
   * and the landmarks, which the source reads from three arrays at the same
   * index.
   */
  datatype HandDetection = HandDetection(categoryName: string, handLabel: string, landmarks: seq<Landmark>)

  /** `{recognizedGesture, fingerCount}`, one per hand. */
  datatype GestureEntry = GestureEntry(recognizedGesture: string, fingerCount: nat)

  /** The object `{type, data}` a recognition pass hands to the controller. */
  datatype RecognitionResult =
    | GestureResult(entries: seq<GestureEntry>)
    | FaceResult(focus: FocusLabel)

  /**
   * Lines 359-397: one entry per detected hand, in detection order, carrying
   * the hand's gesture name and its finger count.
   */
  method AssembleGestures(hands: seq<HandDetection>) returns (data: seq<GestureEntry>)
    requires forall i :: 0 <= i < |hands| ==> |hands[i].landmarks| >= HandLandmarkCount
    ensures |data| == |hands|
    ensures forall i :: 0 <= i < |hands| ==>
      data[i].recognizedGesture == hands[i].categoryName &&
      data[i].fingerCount == |RaisedDigits(hands[i].handLabel, hands[i].landmarks)| &&
      data[i].fingerCount <= 5
  {
    data := [];
    for i := 0 to |hands|
      invariant |data| == i
      invariant forall j :: 0 <= j < i ==>
        data[j].recognizedGesture == hands[j].categoryName &&
        data[j].fingerCount == |RaisedDigits(hands[j].handLabel, hands[j].landmarks)| &&
        data[j].fingerCount <= 5
    {
      var fingerCount := CountFingers(hands[i].handLabel, hands[i].landmarks);
      data := data + [GestureEntry(hands[i].categoryName, fingerCount)];
    }
  }

  /** Lines 512-527: the face result of one frame. */
  function EyeFocusRecognition(faceBlendshapes: Option<seq<seq<Category>>>, thresholds: map<string, real>): (r: RecognitionResult)
    ensures r.FaceResult?
    ensures r.focus == Focus <==>
      faceBlendshapes.Some? && |faceBlendshapes.value| > 0 &&
      forall c :: c in faceBlendshapes.value[0] ==> !Exceeds(c, thresholds)
  {
    FaceResult(ClassifyFocus(faceBlendshapes, thresholds))
  }

  /** The property key JavaScript makes of a plain object: `String({...})`. */
  const ObjectKey: string := "[object Object]"

  /**
   * Lines 439 and 529 pass the whole result object as the only argument,
   * while line 85 takes four positional parameters: the object lands in
   * `rightHandGesture`, and the other three are `undefined`.
   */
  function AsWrittenArguments(result: RecognitionResult, now: int): (f: Frame)
    ensures f.leftHandGesture.None? && f.fingerCount.None? && f.focusState.None?
    ensures f.rightHandGesture == Some(ObjectKey) && f.now == now
  {
    Frame(Some(ObjectKey), None, None, None, now)
  }

  /**
   * As the callers are written, no call ever fires a command unless the
   * bindings happen to contain the key "[object Object]": the player and the
   * timestamp never change.
   */
  lemma {:induction false} AsWrittenCallsNeverDispatch(ready: bool, bindings: Option<map<string, string>>,
                                                       s: ControlState, results: seq<RecognitionResult>,
                                                       frames: seq<Frame>)
    requires bindings.None? || ObjectKey !in bindings.value
    requires |frames| == |results|
    requires forall i :: 0 <= i < |frames| ==> frames[i] == AsWrittenArguments(results[i], frames[i].now)
    ensures Run(ready, bindings, s, frames) == s
    decreases |frames|
  {
    if frames != [] {
      assert FiredIn(ready, bindings, s, frames[0]).None?;
      AsWrittenCallsNeverDispatch(ready, bindings, s, results[1..], frames[1..]);
    }
  }
}
