/**
 * The pure decision rules of the command controller of
 * static/scripts/youtube-player.js: the finger-count action names, the
 * priority between the four inputs, the cooldown test, the lookup of an
 * action's binding and the volume arithmetic.
 */
module Actions {
  import opened Wrappers

  /** Minimum spacing between two commands that carry no focus state, in milliseconds. */
  const PauseBetweenCommandsInMillis: int := 1800

  /** How far a volume command back-dates the last-command timestamp: 0.75 × 1800 ms. */
  const VolumeRebateInMillis: int := PauseBetweenCommandsInMillis * 3 / 4

  /** The seven finger-count action names, for the counts 2 to 8 in order. */
  const FingerActionNames: seq<string> :=
    ["TwoFingers", "ThreeFingers", "FourFingers", "FiveFingers",
     "SixFingers", "SevenFingers", "EightFingers"]

  /** `parseToAction`: a finger count becomes an action name, or null. */
  function ParseToAction(value: int): (r: Option<string>)
    ensures r.Some? <==> 2 <= value <= 8
    ensures r.Some? ==> r.value == FingerActionNames[value - 2]
  {
    if value == 2 then Some("TwoFingers")
    else if value == 3 then Some("ThreeFingers")
    else if value == 4 then Some("FourFingers")
    else if value == 5 then Some("FiveFingers")
    else if value == 6 then Some("SixFingers")
    else if value == 7 then Some("SevenFingers")
    else if value == 8 then Some("EightFingers")
    else None
  }

  /** Different counts never share an action name, so the name gives the count back. */
  lemma ParseToActionInjective(m: int, n: int)
    requires ParseToAction(m).Some? && ParseToAction(m) == ParseToAction(n)
    ensures m == n
  {
  }

  /** A player operation, as named by the binding values the controller knows. */
  datatype Operation =
    | PlayVideo | PauseVideo | VolumeUp | VolumeDown | Mute | Unmute
    | NoOperation

  /** The binding value that selects each known operation. */
  function ControlName(op: Operation): string
    requires op != NoOperation
  {
    match op
    case PlayVideo => "playVideoControl"
    case PauseVideo => "pauseVideoControl"
    case VolumeUp => "volumeUpVideoControl"
    case VolumeDown => "volumeDownVideoControl"
    case Mute => "muteVideoControl"
    case Unmute => "unmuteVideoControl"
  }

  const ControlNames: set<string> :=
    {"playVideoControl", "pauseVideoControl", "volumeUpVideoControl",
     "volumeDownVideoControl", "muteVideoControl", "unmuteVideoControl"}

  /**
   * `controlsToAction[action]` compared in turn against the six known
   * control names; a missing key or any other value selects nothing.
   */
  function OperationOf(bindings: Option<map<string, string>>, action: string): (op: Operation)
    ensures op != NoOperation ==>
      bindings.Some? && action in bindings.value && bindings.value[action] == ControlName(op)
    ensures op == NoOperation <==>
      bindings.None? || action !in bindings.value || bindings.value[action] !in ControlNames
  {
    if bindings.None? || action !in bindings.value then NoOperation
    else
      var b := bindings.value[action];
      if b == "playVideoControl" then PlayVideo
      else if b == "pauseVideoControl" then PauseVideo
      else if b == "volumeUpVideoControl" then VolumeUp
      else if b == "volumeDownVideoControl" then VolumeDown
      else if b == "muteVideoControl" then Mute
      else if b == "unmuteVideoControl" then Unmute
      else NoOperation
  }

  predicate IsVolumeOperation(op: Operation) {
    op == VolumeUp || op == VolumeDown
  }

  /**
   * `label in controlsToAction ? label : null`, read as a JavaScript truth
   * value: an absent label and the empty string are both falsy.
   */
  function BoundLabel(bindings: map<string, string>, name: Option<string>): Option<string>
  {
    if name.Some? && name.value != "" && name.value in bindings then name else None
  }

  /**
   * The action chosen from the four inputs: a bound focus state first, then
   * a bound right-hand gesture, then a bound left-hand gesture, and only when
   * none of them is bound, the finger-count name of an integer count.
   */
  function ResolveAction(bindings: map<string, string>, rightHandGesture: Option<string>,
                         leftHandGesture: Option<string>, fingerCount: Option<int>,
                         focusState: Option<string>): (r: Option<string>)
    ensures focusState.Some? && focusState.value != "" && focusState.value in bindings ==>
      r == focusState
    ensures BoundLabel(bindings, focusState).None? &&
            rightHandGesture.Some? && rightHandGesture.value != "" && rightHandGesture.value in bindings ==>
      r == rightHandGesture
    ensures BoundLabel(bindings, focusState).None? && BoundLabel(bindings, rightHandGesture).None? &&
            leftHandGesture.Some? && leftHandGesture.value != "" && leftHandGesture.value in bindings ==>
      r == leftHandGesture
    ensures BoundLabel(bindings, focusState).None? && BoundLabel(bindings, rightHandGesture).None? &&
            BoundLabel(bindings, leftHandGesture).None? ==>
      r == (if fingerCount.Some? then ParseToAction(fingerCount.value) else None)
    ensures r.Some? ==> r.value != "" && (r.value in bindings || r.value in FingerActionNames)
  {
    var named :=
      if BoundLabel(bindings, focusState).Some? then focusState
      else if BoundLabel(bindings, rightHandGesture).Some? then rightHandGesture
      else BoundLabel(bindings, leftHandGesture);
    if named.Some? then named
    else if fingerCount.Some? then ParseToAction(fingerCount.value)
    else None
  }

  /** Line 93: a focus state, null or not, bypasses the cooldown; otherwise more than 1800 ms must have passed. */
  predicate CooldownOpen(focusState: Option<string>, now: int, timestampLastCommand: int)
  {
    focusState.Some? || now - timestampLastCommand > PauseBetweenCommandsInMillis
  }

  /** The timestamp stored once an action is resolved: now, back-dated by 1350 ms after a volume command. */
  function NextTimestamp(op: Operation, now: int): (t: int)
    ensures IsVolumeOperation(op) ==> t == now - VolumeRebateInMillis
    ensures !IsVolumeOperation(op) ==> t == now
  {
    if IsVolumeOperation(op) then now - VolumeRebateInMillis else now
  }

  /** Lines 114-119: ten steps up, never past 100. */
  function RaisedVolume(volume: int): (v: int)
    ensures v == volume + 10 || v == 100
    ensures v <= 100 && v <= volume + 10
    ensures 0 <= volume <= 100 ==> volume <= v <= 100
  {
    if volume + 10 < 100 then volume + 10 else 100
  }

  /** Lines 124-129: ten steps down, never below 0. */
  function LoweredVolume(volume: int): (v: int)
    ensures v == volume - 10 || v == 0
    ensures v >= 0 && v >= volume - 10
    ensures 0 <= volume <= 100 ==> 0 <= v <= volume
  {
    if volume - 10 > 0 then volume - 10 else 0
  }
}
