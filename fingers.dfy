/**
 * The geometric finger counter inlined in `gestureRecognition`
 * (static/scripts/mediapipe.js): one point for the thumb, judged
 * horizontally and mirrored by handedness, and one for each other finger
 * whose tip lies above its middle joint.
 */
module Fingers {

  /** A hand landmark, in the detector's normalised image coordinates (y grows downwards). */
  datatype Landmark = Landmark(x: real, y: real)

  /** The detector reports 21 landmarks per hand; the counter reads indices up to 20. */
  const HandLandmarkCount: nat := 21

  datatype Digit = Thumb | Index | Middle | Ring | Pinky

  /** Landmark index of each digit's tip. */
  function TipIndex(d: Digit): nat
  {
    match d
    case Thumb => 4
    case Index => 8
    case Middle => 12
    case Ring => 16
    case Pinky => 20
  }

  /** Landmark index of the joint each tip is compared with (the thumb's IP joint, the other fingers' PIP joints). */
  function JointIndex(d: Digit): nat
  {
    match d
    case Thumb => 3
    case Index => 6
    case Middle => 10
    case Ring => 14
    case Pinky => 18
  }

  /**
   * When a digit counts as raised: the thumb by x, in the direction the
   * handedness label gives; any other finger by y, its tip strictly above
   * its joint.
   */
  predicate Extended(d: Digit, handLabel: string, landmarks: seq<Landmark>)
    requires |landmarks| >= HandLandmarkCount
  {
    var tip, joint := landmarks[TipIndex(d)], landmarks[JointIndex(d)];
    if d == Thumb then
      (handLabel == "Left" && tip.x > joint.x) || (handLabel == "Right" && tip.x < joint.x)
    else
      tip.y < joint.y
  }

  /** The raised digits, thumb first and pinky last; the finger count is how many there are. */
  function RaisedDigits(handLabel: string, landmarks: seq<Landmark>): (r: seq<Digit>)
    requires |landmarks| >= HandLandmarkCount
    ensures forall d :: d in r <==> Extended(d, handLabel, landmarks)
    ensures forall i, j :: 0 <= i < j < |r| ==> r[i] != r[j]
    ensures Thumb in r <==>
      (handLabel == "Left" && landmarks[4].x > landmarks[3].x) ||
      (handLabel == "Right" && landmarks[4].x < landmarks[3].x)
    ensures Index in r <==> landmarks[8].y < landmarks[6].y
    ensures Middle in r <==> landmarks[12].y < landmarks[10].y
    ensures Ring in r <==> landmarks[16].y < landmarks[14].y
    ensures Pinky in r <==> landmarks[20].y < landmarks[18].y
    ensures |r| <= 5
  {
    Raised(Thumb, handLabel, landmarks) + Raised(Index, handLabel, landmarks) +
    Raised(Middle, handLabel, landmarks) + Raised(Ring, handLabel, landmarks) +
    Raised(Pinky, handLabel, landmarks)
  }

  /** The one-digit list when the digit is raised, else the empty list. */
  function Raised(d: Digit, handLabel: string, landmarks: seq<Landmark>): seq<Digit>
    requires |landmarks| >= HandLandmarkCount
  {
    if Extended(d, handLabel, landmarks) then [d] else []
  }

  /** With a handedness label other than "Left" or "Right" the thumb never counts, so at most four digits do. */
  lemma UnknownHandednessAtMostFour(handLabel: string, landmarks: seq<Landmark>)
    requires |landmarks| >= HandLandmarkCount
    requires handLabel != "Left" && handLabel != "Right"
    ensures Thumb !in RaisedDigits(handLabel, landmarks)
    ensures |RaisedDigits(handLabel, landmarks)| <= 4
  {
  }

  /** The image flipped left to right: x becomes 1 - x. */
  function Mirrored(landmarks: seq<Landmark>): (r: seq<Landmark>)
    ensures |r| == |landmarks|
    ensures forall i :: 0 <= i < |r| ==> r[i] == Landmark(1.0 - landmarks[i].x, landmarks[i].y)
  {
    seq(|landmarks|, i requires 0 <= i < |landmarks| => Landmark(1.0 - landmarks[i].x, landmarks[i].y))
  }

  /** The handedness flip mirrors the thumb test: a left hand counts as its mirror image read as a right hand. */
  lemma {:induction false} MirrorSwapsHandedness(landmarks: seq<Landmark>)
    requires |landmarks| >= HandLandmarkCount
    ensures RaisedDigits("Left", landmarks) == RaisedDigits("Right", Mirrored(landmarks))
  {
  }

  /**
   * Lines 375-392: the count built by step-wise increments, one test per
   * digit, equals the number of raised digits.
   */
  method CountFingers(handLabel: string, landmarks: seq<Landmark>) returns (fingerCount: nat)
    requires |landmarks| >= HandLandmarkCount
    ensures fingerCount == |RaisedDigits(handLabel, landmarks)|
    ensures fingerCount <= 5
  {
    fingerCount := 0;
    if handLabel == "Left" && landmarks[4].x > landmarks[3].x {
      fingerCount := fingerCount + 1;
    } else if handLabel == "Right" && landmarks[4].x < landmarks[3].x {
      fingerCount := fingerCount + 1;
    }

    if landmarks[8].y < landmarks[6].y {
      fingerCount := fingerCount + 1;
    }
    if landmarks[12].y < landmarks[10].y {
      fingerCount := fingerCount + 1;
    }
    if landmarks[16].y < landmarks[14].y {
      fingerCount := fingerCount + 1;
    }
    if landmarks[20].y < landmarks[18].y {
      fingerCount := fingerCount + 1;
    }
  }
}
