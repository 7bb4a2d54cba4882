/**
 * `YTPlayerController` of static/scripts/youtube-player.js together with the
 * globals it reads and writes (`isReady`, `timestampLastCommand`, `player`).
 * The clock is a parameter; the control bindings (`controlsToAction`) are a
 * parameter that may be absent.
 *
 * Step and Run give the same behaviour as a pure state machine over frames,
 * so that properties of several consecutive calls can be stated as lemmas.
 */
module Controller {
  import opened Wrappers
  import opened Actions
  import opened Player

  /** What `YTPlayerController` returns: `false` when there is no ready player, `undefined` otherwise. */
  datatype Outcome = NotReady | Completed

  /**
   * The action one call fires, if any: nothing without a ready player or
   * without bindings, nothing while the cooldown is closed, otherwise the
   * resolved action.
   */
  function Fired(ready: bool, bindings: Option<map<string, string>>, rightHandGesture: Option<string>,
                 leftHandGesture: Option<string>, fingerCount: Option<int>, focusState: Option<string>,
                 now: int, timestampLastCommand: int): (a: Option<string>)
    ensures !ready || bindings.None? ==> a.None?
    ensures focusState.None? && now - timestampLastCommand <= PauseBetweenCommandsInMillis ==> a.None?
    ensures a.Some? ==>
      bindings.Some? && a == ResolveAction(bindings.value, rightHandGesture, leftHandGesture, fingerCount, focusState)
    ensures ready && bindings.Some? && CooldownOpen(focusState, now, timestampLastCommand) ==>
      a == ResolveAction(bindings.value, rightHandGesture, leftHandGesture, fingerCount, focusState)
  {
    if ready && bindings.Some? && CooldownOpen(focusState, now, timestampLastCommand) then
      ResolveAction(bindings.value, rightHandGesture, leftHandGesture, fingerCount, focusState)
    else None
  }

  /** The four positional arguments of one call, and the clock reading during it. */
  datatype Frame = Frame(rightHandGesture: Option<string>, leftHandGesture: Option<string>,
                         fingerCount: Option<int>, focusState: Option<string>, now: int)

  /** The state one call can change: the last-command timestamp and the player. */
  datatype ControlState = ControlState(timestampLastCommand: int, player: PlayerState)

  function FiredIn(ready: bool, bindings: Option<map<string, string>>, s: ControlState, f: Frame): Option<string>
  {
    Fired(ready, bindings, f.rightHandGesture, f.leftHandGesture, f.fingerCount, f.focusState,
          f.now, s.timestampLastCommand)
  }

  /**
   * One call as a state transition: when an action fires, the timestamp
   * becomes the clock (back-dated after a volume command) and exactly the
   * operation bound to the action is applied to the player.
   */
  function Step(ready: bool, bindings: Option<map<string, string>>, s: ControlState, f: Frame): (t: ControlState)
    ensures FiredIn(ready, bindings, s, f).None? ==> t == s
    ensures FiredIn(ready, bindings, s, f).Some? ==>
      var op := OperationOf(bindings, FiredIn(ready, bindings, s, f).value);
      t.player == Apply(op, s.player) &&
      (IsVolumeOperation(op) ==> t.timestampLastCommand == f.now - VolumeRebateInMillis) &&
      (!IsVolumeOperation(op) ==> t.timestampLastCommand == f.now)
  {
    match FiredIn(ready, bindings, s, f)
    case None => s
    case Some(action) =>
      var op := OperationOf(bindings, action);
      ControlState(NextTimestamp(op, f.now), Apply(op, s.player))
  }

  /** Consecutive calls, one per frame, in order. */
  function Run(ready: bool, bindings: Option<map<string, string>>, s: ControlState, frames: seq<Frame>): ControlState
    decreases |frames|
  {
    if frames == [] then s else Run(ready, bindings, Step(ready, bindings, s, frames[0]), frames[1..])
  }

  /** Without a ready player, any number of calls changes nothing. */
  lemma {:induction false} NotReadyRunIsInert(bindings: Option<map<string, string>>, s: ControlState, frames: seq<Frame>)
    ensures Run(false, bindings, s, frames) == s
    decreases |frames|
  {
    if frames != [] {
      NotReadyRunIsInert(bindings, s, frames[1..]);
    }
  }

  /** A volume starting in 0..100 stays in 0..100 whatever the calls. */
  lemma {:induction false} RunKeepsVolumeInRange(ready: bool, bindings: Option<map<string, string>>,
                                                 s: ControlState, frames: seq<Frame>)
    requires VolumeInRange(s.player)
    ensures VolumeInRange(Run(ready, bindings, s, frames).player)
    decreases |frames|
  {
    if frames != [] {
      RunKeepsVolumeInRange(ready, bindings, Step(ready, bindings, s, frames[0]), frames[1..]);
    }
  }

  /**
   * Calls that carry no focus state and come no more than 1800 ms after the
   * stored timestamp change nothing at all.
   */
  lemma {:induction false} QuietWithinCooldown(ready: bool, bindings: Option<map<string, string>>,
                                               s: ControlState, frames: seq<Frame>)
    requires forall i :: 0 <= i < |frames| ==>
      frames[i].focusState.None? && frames[i].now - s.timestampLastCommand <= PauseBetweenCommandsInMillis
    ensures Run(ready, bindings, s, frames) == s
    decreases |frames|
  {
    if frames != [] {
      assert Step(ready, bindings, s, frames[0]) == s;
      QuietWithinCooldown(ready, bindings, s, frames[1..]);
    }
  }

  /**
   * After a command other than a volume change fires at time t, every later
   * call without a focus state up to t + 1800 ms is dropped: a second play
   * inside the cooldown does nothing.
   */
  lemma CooldownAfterCommand(ready: bool, bindings: Option<map<string, string>>, s: ControlState,
                             first: Frame, later: seq<Frame>)
    requires FiredIn(ready, bindings, s, first).Some?
    requires !IsVolumeOperation(OperationOf(bindings, FiredIn(ready, bindings, s, first).value))
    requires forall i :: 0 <= i < |later| ==>
      later[i].focusState.None? && later[i].now - first.now <= PauseBetweenCommandsInMillis
    ensures Run(ready, bindings, s, [first] + later) == Step(ready, bindings, s, first)
  {
    var t := Step(ready, bindings, s, first);
    assert ([first] + later)[1..] == later;
    QuietWithinCooldown(ready, bindings, t, later);
  }

  /**
   * After a command other than a volume change fires at time t, a call
   * without a focus state fires its resolved action exactly when it comes
   * more than 1800 ms later.
   */
  lemma CommandAfterCooldown(ready: bool, m: map<string, string>, s: ControlState,
                             first: Frame, next: Frame)
    requires FiredIn(ready, Some(m), s, first).Some?
    requires !IsVolumeOperation(OperationOf(Some(m), FiredIn(ready, Some(m), s, first).value))
    requires next.focusState.None?
    ensures var t := Step(ready, Some(m), s, first);
      FiredIn(ready, Some(m), t, next) ==
        if next.now - first.now > PauseBetweenCommandsInMillis
        then ResolveAction(m, next.rightHandGesture, next.leftHandGesture, next.fingerCount, None)
        else None
  {
  }

  /**
   * After a volume command fires at time t, a call without a focus state
   * can fire again exactly when more than 450 ms have passed.
   */
  lemma VolumeCooldownIsShorter(ready: bool, m: map<string, string>, s: ControlState,
                                first: Frame, next: Frame)
    requires FiredIn(ready, Some(m), s, first).Some?
    requires IsVolumeOperation(OperationOf(Some(m), FiredIn(ready, Some(m), s, first).value))
    requires next.focusState.None?
    ensures var t := Step(ready, Some(m), s, first);
      FiredIn(ready, Some(m), t, next) ==
        if next.now - first.now > PauseBetweenCommandsInMillis - VolumeRebateInMillis
        then ResolveAction(m, next.rightHandGesture, next.leftHandGesture, next.fingerCount, None)
        else None
  {
  }

  class Controller {
    /** `isReady`: set once the embedded player has loaded. */
    var isReady: bool
    /** `timestampLastCommand`, in milliseconds. */
    var timestampLastCommand: int
    /** The global `player`, null until one is constructed. */
    var player: YTPlayer?

    ghost predicate Valid()
      reads this, player
    {
      player != null ==> player.Valid()
    }

    /** Lines 3-4: no player ready, and the timestamp taken at load time. */
    constructor (now: int)
      ensures Valid() && !isReady && player == null && timestampLastCommand == now
    {
      isReady := false;
      timestampLastCommand := now;
      player := null;
    }

    /**
     * One call with the four positional arguments of line 85; `bindings` is
     * `controlsToAction` and `now` the clock reading.
     */
    method YTPlayerController(bindings: Option<map<string, string>>, rightHandGesture: Option<string>,
                              leftHandGesture: Option<string>, fingerCount: Option<int>,
                              focusState: Option<string>, now: int) returns (r: Outcome)
      requires Valid()
      modifies this`timestampLastCommand, player
      ensures Valid()
      ensures r == (if player != null && isReady then Completed else NotReady)
      ensures player == null ==> timestampLastCommand == old(timestampLastCommand)
      ensures player != null ==>
        ControlState(timestampLastCommand, player.State()) ==
          Step(isReady, bindings, ControlState(old(timestampLastCommand), old(player.State())),
               Frame(rightHandGesture, leftHandGesture, fingerCount, focusState, now))
    {
      if player == null || !isReady {
        return NotReady;
      }
      r := Completed;
      if bindings.Some? {
        var controlsToAction := bindings.value;
        var currentTime := now;
        if focusState.Some? || currentTime - timestampLastCommand > PauseBetweenCommandsInMillis {
          var action := BoundLabel(controlsToAction, focusState);
          if action.None? {
            action := BoundLabel(controlsToAction, rightHandGesture);
          }
          if action.None? {
            action := BoundLabel(controlsToAction, leftHandGesture);
          }
          if action.None? && fingerCount.Some? {
            action := ParseToAction(fingerCount.value);
          }

          if action.Some? {
            Dispatch(controlsToAction, action.value, now);
          }
        }
      }
    }

    /**
     * Lines 106-137 once an action is resolved: store the clock, then run the
     * one operation bound to the action, if its binding is a known one.
     */
    method Dispatch(controlsToAction: map<string, string>, action: string, now: int)
      requires Valid() && player != null
      modifies this`timestampLastCommand, player
      ensures Valid()
      ensures timestampLastCommand == NextTimestamp(OperationOf(Some(controlsToAction), action), now)
      ensures player.State() == Apply(OperationOf(Some(controlsToAction), action), old(player.State()))
    {
      timestampLastCommand := now;
      if action in controlsToAction {
        var binding := controlsToAction[action];
        if binding == "playVideoControl" {
          player.PlayVideo();
        } else if binding == "pauseVideoControl" {
          player.PauseVideo();
        } else if binding == "volumeUpVideoControl" {
          var volumeLevel := player.GetVolume();
          volumeLevel := volumeLevel + 10;
          if volumeLevel > 100 {
            volumeLevel := 100;
          }
          player.SetVolume(volumeLevel);
          timestampLastCommand := timestampLastCommand - VolumeRebateInMillis;
        } else if binding == "volumeDownVideoControl" {
          var volumeLevel := player.GetVolume();
          volumeLevel := volumeLevel - 10;
          if volumeLevel < 0 {
            volumeLevel := 0;
          }
          player.SetVolume(volumeLevel);
          timestampLastCommand := timestampLastCommand - VolumeRebateInMillis;
        } else if binding == "muteVideoControl" {
          player.Mute();
        } else if binding == "unmuteVideoControl" {
          player.UnMute();
        }
      }
    }
  }
}
