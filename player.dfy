/**
 * The embedded YouTube player as the controller sees it: a volume in
 * 0..100 and two flags. Only the operations the controller calls are
 * modelled; the iframe transport behind them is not.
 */
module Player {
  import opened Actions

  /** The observable state of the player. */
  datatype PlayerState = PlayerState(volume: int, muted: bool, playing: bool)

  predicate VolumeInRange(s: PlayerState) {
    0 <= s.volume <= 100
  }

  /** What one dispatched operation does to the player state (lines 109-137). */
  function Apply(op: Operation, s: PlayerState): (t: PlayerState)
    ensures !IsVolumeOperation(op) ==> t.volume == s.volume
    ensures IsVolumeOperation(op) ==> t.muted == s.muted && t.playing == s.playing
    ensures op == VolumeUp ==> t.volume == RaisedVolume(s.volume)
    ensures op == VolumeDown ==> t.volume == LoweredVolume(s.volume)
    ensures op == NoOperation ==> t == s
    ensures op == PlayVideo ==> t.playing && t.muted == s.muted
    ensures op == PauseVideo ==> !t.playing && t.muted == s.muted
    ensures op == Mute ==> t.muted && t.playing == s.playing
    ensures op == Unmute ==> !t.muted && t.playing == s.playing
    ensures VolumeInRange(s) ==> VolumeInRange(t)
  {
    match op
    case PlayVideo => s.(playing := true)
    case PauseVideo => s.(playing := false)
    case VolumeUp => s.(volume := RaisedVolume(s.volume))
    case VolumeDown => s.(volume := LoweredVolume(s.volume))
    case Mute => s.(muted := true)
    case Unmute => s.(muted := false)
    case NoOperation => s
  }

  class YTPlayer {
    var volume: int
    var muted: bool
    var playing: bool

    ghost predicate Valid()
      reads this
    {
      0 <= volume <= 100
    }

    function State(): PlayerState
      reads this
    {
      PlayerState(volume, muted, playing)
    }

    constructor (volume: int)
      requires 0 <= volume <= 100
      ensures Valid() && State() == PlayerState(volume, false, false)
    {
      this.volume := volume;
      muted := false;
      playing := false;
    }

    method PlayVideo()
      modifies this
      ensures State() == old(State()).(playing := true)
    {
      playing := true;
    }

    method PauseVideo()
      modifies this
      ensures State() == old(State()).(playing := false)
    {
      playing := false;
    }

    method Mute()
      modifies this
      ensures State() == old(State()).(muted := true)
    {
      muted := true;
    }

    method UnMute()
      modifies this
      ensures State() == old(State()).(muted := false)
    {
      muted := false;
    }

    method GetVolume() returns (v: int)
      requires Valid()
      ensures v == volume && 0 <= v <= 100
    {
      v := volume;
    }

    method SetVolume(v: int)
      requires 0 <= v <= 100
      modifies this
      ensures Valid() && State() == old(State()).(volume := v)
    {
      volume := v;
    }
  }
}
