# NoClickTubeController: gesture and eye-focus command logic

This project models in Dafny the decision logic of NoClickTubeController. The
application watches a webcam, recognises hand gestures and where the user is
looking, and drives an embedded YouTube player. The model covers two parts of
that logic:

- **The command controller** (`static/scripts/youtube-player.js`).
  `parseToAction` turns a finger count into an action name.
  `YTPlayerController` does the rest:
  - it does nothing without a ready player;
  - it enforces an 1800 ms cooldown, which a focus state bypasses;
  - it picks one action by priority: focus state, then right-hand gesture,
    then left-hand gesture, then the finger-count name;
  - it runs the player operation bound to that action;
  - it moves the volume in steps of 10 within 0..100;
  - after a volume command it back-dates `timestampLastCommand` by 1350 ms.

  The globals `isReady`, `timestampLastCommand` and `player` are fields of the
  class `Controller.Controller`. The player is the class `Player.YTPlayer`,
  which holds only a volume and the muted and playing flags. The clock and the
  `controlsToAction` bindings are parameters. `Controller.Step` and
  `Controller.Run` give the same behaviour as a pure state machine, so that
  properties of several consecutive calls can be proved.
- **The per-frame classifiers** (`static/scripts/mediapipe.js`). These are:
  - the geometric finger counter (`Fingers`);
  - the focus / no-focus filter over face blendshape scores (`Focus`);
  - the calibration thresholds, which keep the per-key maximum of the
    observed scores and then add a 15% margin (`Calibration`, a class over
    the `calibrationData` map);
  - repeated calibrations: `calibrationData` is created once and never
    reset, so each walk starts from the previous walk's thresholds, margin
    included, and the 15% margin compounds;
  - the per-hand assembly of `{recognizedGesture, fingerCount}` entries
    (`Recognition`).

  Coordinates and scores are exact `real`s.

The source's two callers do not match the controller's signature. Both
callers, `static/scripts/mediapipe.js:439` and `:529`, pass one result object.
The controller, `static/scripts/youtube-player.js:85`, takes four positional
parameters. So the object becomes `rightHandGesture`, and the other three
arguments are `undefined`. JavaScript's `in` turns the object into the key
`"[object Object]"`. `Recognition.AsWrittenArguments` models this call as
written. `Recognition.AsWrittenCallsNeverDispatch` proves that, as wired, the
callers never fire a command unless that key is bound. The model keeps the
controller's four-parameter contract and adds no adapter.

The model describes what the code does. Some behaviours a reader might
expect from such an application are absent from the code, and so from the
model:
- A bound focus state has priority over both hands; gestures do not pre-empt
  it.
- There is no dwell timer, no focus/no-focus latch, no eye-control latch and
  no notification. The only timing state is `timestampLastCommand`.
- With no face, the classifier says `'noFocus'`; there is no separate
  "unknown" result.
- Fewer than 21 hand landmarks makes the code throw rather than count 0. The
  model therefore requires 21 landmarks.
- The controller takes a single `fingerCount`; it does not sum over hands.
- Without a ready player the controller returns `false` before touching any
  state.

## Model

| member | source | states |
|---|---|---|
| Actions.ParseToAction | static/scripts/youtube-player.js:64-83 | a name is returned exactly for counts 2..8, and it is the count's entry in the list "TwoFingers".."EightFingers"; every other value gives null |
| Actions.ParseToActionInjective | static/scripts/youtube-player.js:64-83 | two counts that give the same name are equal, so a finger-count action names its count |
| Actions.OperationOf | static/scripts/youtube-player.js:109-137 | an operation is selected only when the action is a key whose binding is that operation's control name; a missing key or any other binding selects no operation |
| Actions.ResolveAction | static/scripts/youtube-player.js:95-104 | a bound, non-empty focus state wins over a bound right-hand gesture, which wins over a bound left-hand gesture; only when none is bound does an integer finger count give its finger-count name; a resolved action is non-empty and either bound or a finger-count name |
| Actions.NextTimestamp | static/scripts/youtube-player.js:106-131 | the stored timestamp is the clock, or the clock minus 1350 ms exactly for volume up and volume down |
| Actions.RaisedVolume | static/scripts/youtube-player.js:114-119 | volume up gives v+10 or 100, never above 100 and never more than 10 up; from 0..100 it stays in v..100 |
| Actions.LoweredVolume | static/scripts/youtube-player.js:123-129 | volume down gives v-10 or 0, never below 0 and never more than 10 down; from 0..100 it stays in 0..v |
| Player.Apply | static/scripts/youtube-player.js:109-137 | each operation changes only its own part of the player: play/pause set playing, mute/unmute set muted, volume up sets the volume to RaisedVolume and volume down to LoweredVolume of the old one, only these two change the volume, no operation changes nothing, and the volume stays in 0..100 |
| Controller.Fired | static/scripts/youtube-player.js:86-104 | nothing fires without a ready player or without bindings; nothing fires without a focus state unless more than 1800 ms have passed, while with a ready player and bindings the resolved action fires whenever a non-null focus state is given or more than 1800 ms have passed |
| Controller.Step | static/scripts/youtube-player.js:85-141 | a call that fires nothing changes nothing; a call that fires applies exactly the bound operation and stores the clock, back-dated by 1350 ms after a volume command, even when the binding is not a known operation |
| Controller.NotReadyRunIsInert | static/scripts/youtube-player.js:86-88 | any number of calls without a ready player leaves timestamp and player unchanged |
| Controller.RunKeepsVolumeInRange | static/scripts/youtube-player.js:114-129 | over any sequence of calls a volume that starts in 0..100 stays in 0..100 |
| Controller.QuietWithinCooldown | static/scripts/youtube-player.js:93 | calls without a focus state that come no more than 1800 ms after the stored timestamp change nothing |
| Controller.CooldownAfterCommand | static/scripts/youtube-player.js:93-107 | after a non-volume command fires at t, every later call without a focus state up to t+1800 ms is dropped; a second play inside the cooldown does nothing |
| Controller.CommandAfterCooldown | static/scripts/youtube-player.js:93-107 | after a non-volume command at t, the next call without a focus state fires its resolved action exactly when more than 1800 ms have passed |
| Controller.VolumeCooldownIsShorter | static/scripts/youtube-player.js:121-131 | after a volume command at t, the next call without a focus state fires its resolved action exactly when more than 450 ms have passed |
| Controller.Controller.constructor | static/scripts/youtube-player.js:3-4 | no ready player, and the timestamp is the load time |
| Controller.Controller.YTPlayerController | static/scripts/youtube-player.js:85-141 | returns false exactly when the player is absent or not ready, and then changes nothing; otherwise the new timestamp and player state are those of Step |
| Controller.Controller.Dispatch | static/scripts/youtube-player.js:106-137 | stores the clock and runs the one operation bound to the action, back-dating the timestamp after a volume change |
| Fingers.RaisedDigits | static/scripts/mediapipe.js:375-392 | the thumb is raised for "Left" iff landmark 4's x exceeds landmark 3's and for "Right" iff it is smaller; index, middle, ring and pinky are raised iff tip y is below PIP y for (8,6), (12,10), (16,14), (20,18); no digit twice, at most five |
| Fingers.UnknownHandednessAtMostFour | static/scripts/mediapipe.js:376-383 | with any other handedness label the thumb never counts and at most four digits do |
| Fingers.MirrorSwapsHandedness | static/scripts/mediapipe.js:376-383 | a left hand raises the same digits as its left-right mirror image read as a right hand |
| Fingers.CountFingers | static/scripts/mediapipe.js:375-392 | the step-wise count equals the number of raised digits and is at most 5 |
| Focus.Exceeding | static/scripts/mediapipe.js:519-521 | the result holds exactly the blendshapes whose name is a calibration key and whose score is strictly above its threshold, and never grows the list |
| Focus.ClassifyFocus | static/scripts/mediapipe.js:512-527 | 'focus' exactly when a face was detected and no blendshape of the first face exceeds its threshold; 'noFocus' otherwise, including no face |
| Focus.ExceedingIgnoresUncalibrated | static/scripts/mediapipe.js:519-521 | dropping the blendshapes whose names are not calibration keys leaves the filter's result unchanged |
| Focus.UncalibratedNamesDoNotMatter | static/scripts/mediapipe.js:519-525 | two faces that agree on their calibrated blendshapes get the same classification |
| Calibration.InitialThresholds | static/scripts/mediapipe.js:93-102 | the eight eye blendshape keys, each at 0 |
| Calibration.AbsorbOne | static/scripts/mediapipe.js:184-188 | a calibrated name takes the sample's score only when it is strictly greater; keys and other thresholds are unchanged |
| Calibration.Absorb | static/scripts/mediapipe.js:183-189 | absorbing a sample keeps the keys and never lowers a threshold |
| Calibration.AbsorbIsMaximum | static/scripts/mediapipe.js:183-189 | after a sample each threshold is at least its old value and every score the sample gave that name, and equals one of them |
| Calibration.AbsorbAll | static/scripts/mediapipe.js:171-192 | absorbing the samples of a calibration walk keeps the keys and never lowers a threshold |
| Calibration.AbsorbAllCoversSamples | static/scripts/mediapipe.js:171-192 | every calibrated score of every sample is at most its threshold at the end of the walk |
| Calibration.AbsorbAllAttained | static/scripts/mediapipe.js:171-192 | at the end of the walk each threshold equals its starting value or a score some sample gave that name; with AbsorbAllCoversSamples it is the maximum of the two |
| Calibration.WithMargin | static/scripts/mediapipe.js:204-207 | every threshold becomes 1.15 times itself; non-negative thresholds stay non-negative and do not decrease; both strict and non-strict order between keys are preserved |
| Calibration.CalibratedSampleReadsAsFocus | static/scripts/mediapipe.js:183-207 | with non-negative starting thresholds, a face showing exactly one of the calibration samples again is classified as 'focus' |
| Calibration.SecondWalkCompoundsMargin | static/scripts/mediapipe.js:93-207 | because the thresholds are never reset, a second walk starts from the first walk's margined values: every calibrated score of the first walk ends at least 1.15 × 1.15 times over |
| Calibration.CalibrationData.constructor | static/scripts/mediapipe.js:93-102 | the thresholds start as the eight keys at 0 |
| Calibration.CalibrationData.RecordSample | static/scripts/mediapipe.js:183-189 | the in-place `forEach` leaves the thresholds equal to Absorb of the old ones, keeping the eight keys and non-negative values |
| Calibration.CalibrationData.ApplyMargin | static/scripts/mediapipe.js:204-207 | the in-place `for..in` leaves the thresholds equal to WithMargin of the old ones |
| Calibration.CalibrationData.Calibrate | static/scripts/mediapipe.js:171-207 | a calibration walk, even one cut short, leaves the margin applied to the per-key maximum of the thresholds before the walk and the scores taken |
| Recognition.AssembleGestures | static/scripts/mediapipe.js:359-397 | exactly one entry per detected hand, in detection order, carrying that hand's gesture name and its finger count, which is at most 5 |
| Recognition.EyeFocusRecognition | static/scripts/mediapipe.js:512-527 | the face result carries 'focus' exactly when a face was detected and none of its calibrated blendshapes exceeds its threshold |
| Recognition.AsWrittenArguments | static/scripts/mediapipe.js:439 | the single result object passed at lines 439 and 529 arrives as rightHandGesture with key "[object Object]"; the other three arguments are undefined |
| Recognition.AsWrittenCallsNeverDispatch | static/scripts/youtube-player.js:85-98 | called as the callers are written, the controller never changes the timestamp or the player unless "[object Object]" is a bound key |

## Left out

- Model loading and inference (`recognizeForVideo`, `detectForVideo`) are foreign calls. Their results are inputs to the model.
- Canvas and DOM drawing, overlay text layout and the display formatting of scores (`toFixed`, `parseFloat`) are presentation only.
- Webcam and UI wiring are browser I/O and event plumbing. This covers `enableCam`, the switch handlers, the `requestAnimationFrame` loop in `predictWebcam` and the calibration modal with its promises and interval timers. `Calibration.CalibrationData.Calibrate` models only the threshold arithmetic of a walk, with the samples that were taken.
- The success flag that `eyeFocusCalibration` returns is UI state and is not modelled.
- YouTube URL handling, player construction, `onPlayerReady` and `onPlayerError` are third-party iframe plumbing. The `isReady` and `player` fields are set from outside.
- The player behind `playVideo`, `pauseVideo`, `mute`, `unMute`, `getVolume` and `setVolume` is abstract. It is a volume in 0..100 plus two flags. Playback that ends on its own is not modelled.
- Controller.Controller.YTPlayerController: `Date.now()` is read twice, at lines 91 and 107. The model uses one clock value `now` for both reads.
- Controller.Controller.YTPlayerController: `controlsToAction` is a plain map. Keys that JavaScript's `in` finds on an object's prototype chain, such as `"toString"`, are not modelled.
- Calibration.AbsorbOne: the same simplification applies to the `in calibrationData` test.
- Controller.Controller.YTPlayerController: the JavaScript return value `undefined` is modelled as `Completed`. The value itself is never used, because `predictWebcam` only compares it with `true`.
- Fingers.CountFingers: the source throws on fewer than 21 landmarks, and the model requires at least 21 rather than modelling the exception.
- Floating-point rounding is not modelled. Coordinates, scores and the 15% margin are exact reals.
