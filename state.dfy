/** The State pattern: a television whose behaviour is delegated to its current
    state (off, on, or on and muted), with the volume kept within 0..10. */
module State {
  import opened Wrappers

  const InitialVolume := 2
  const MaximumVolume := 10
  const MinimumVolume := 0

  function Min(a: int, b: int): int { if a <= b then a else b }
  function Max(a: int, b: int): int { if a >= b then a else b }

  /** Clamps a requested volume into the allowed range; no volume means the initial one. */
  function Normalize(volume: Option<int>): (r: int)
    ensures MinimumVolume <= r <= MaximumVolume
    ensures volume.None? ==> r == InitialVolume
    ensures volume.Some? && MinimumVolume <= volume.value <= MaximumVolume ==> r == volume.value
    ensures volume.Some? && volume.value > MaximumVolume ==> r == MaximumVolume
    ensures volume.Some? && volume.value < MinimumVolume ==> r == MinimumVolume
  {
    Max(MinimumVolume, Min(MaximumVolume, if volume.Some? then volume.value else InitialVolume))
  }

  /** The concrete state objects. A muted state is an on state whose Muted flag is set. */
  datatype TelevisionState = OffState | OnState(volume: int) | MutedState(volume: int)
  {
    /** Every state object the constructors build has its volume in range. */
    predicate Valid() { OffState? || MinimumVolume <= volume <= MaximumVolume }

    function Powered(): bool { !OffState? }

    function Volume(): (r: Option<int>)
      ensures r.Some? <==> Powered()
    {
      if OffState? then None else Some(volume)
    }

    function Muted(): (r: Option<bool>)
      ensures r.Some? <==> Powered()
      ensures r == Some(true) <==> MutedState?
    {
      if OffState? then None else Some(MutedState?)
    }

    /** Off: nothing. On: one step up unless at the maximum. Muted: the same step, then unmute. */
    function IncreaseVolume(): (r: TelevisionState)
      requires Valid()
      ensures r.Valid() && r.Powered() == Powered()
      ensures OffState? ==> r == this
      ensures Powered() ==> r.Muted() == Some(false) && r.volume == Min(volume + 1, MaximumVolume)
    {
      match this
      case OffState => this
      case OnState(v) => if v < MaximumVolume then OnState(v + 1) else this
      case MutedState(v) => MutedState(if v < MaximumVolume then v + 1 else v).ToggleMute()
    }

    /** Off: nothing. On: one step down unless at the minimum. Muted: the same step, then unmute. */
    function LowerVolume(): (r: TelevisionState)
      requires Valid()
      ensures r.Valid() && r.Powered() == Powered()
      ensures OffState? ==> r == this
      ensures Powered() ==> r.Muted() == Some(false) && r.volume == Max(volume - 1, MinimumVolume)
    {
      match this
      case OffState => this
      case OnState(v) => if v > MinimumVolume then OnState(v - 1) else this
      case MutedState(v) => MutedState(if v > MinimumVolume then v - 1 else v).ToggleMute()
    }

    /** Off: nothing. On: a muted state with the same volume. Muted: an on state with the same volume. */
    function ToggleMute(): (r: TelevisionState)
      requires Valid()
      ensures r.Valid() && r.Powered() == Powered() && r.Volume() == Volume()
      ensures OffState? ==> r == this
      ensures Powered() ==> r.Muted() == Some(!MutedState?)
    {
      match this
      case OffState => this
      case OnState(v) => MutedState(Normalize(Some(v)))
      case MutedState(v) => OnState(Normalize(Some(v)))
    }

    /** Off: a fresh on state at the initial volume. On or muted: off. */
    function TogglePower(): (r: TelevisionState)
      requires Valid()
      ensures r.Valid() && r.Powered() == !Powered()
      ensures OffState? ==> r.Volume() == Some(InitialVolume) && r.Muted() == Some(false)
    {
      if OffState? then OnState(InitialVolume) else OffState
    }
  }

  /** A television: the context holding exactly one current state. */
  class Television {
    var state: TelevisionState

    ghost predicate Valid()
      reads this
    {
      state.Valid()
    }

    /** A new television starts in the off state. */
    constructor ()
      ensures Valid() && state == OffState
      ensures !Powered() && Volume().None? && Muted().None?
    {
      state := OffState;
    }

    function Powered(): (r: bool)
      reads this
      ensures r <==> !state.OffState?
    {
      state.Powered()
    }

    function Volume(): (r: Option<int>)
      reads this
      requires Valid()
      ensures r.Some? <==> Powered()
      ensures r.Some? ==> MinimumVolume <= r.value <= MaximumVolume
    {
      state.Volume()
    }

    function Muted(): (r: Option<bool>)
      reads this
      ensures r.Some? <==> Powered()
    {
      state.Muted()
    }

    /** Installs a new current state. */
    method SetState(s: TelevisionState)
      requires s.Valid()
      modifies this
      ensures Valid() && state == s
    {
      state := s;
    }

    method IncreaseVolume()
      requires Valid()
      modifies this
      ensures Valid() && state == old(state).IncreaseVolume()
    {
      SetState(state.IncreaseVolume());
    }

    method LowerVolume()
      requires Valid()
      modifies this
      ensures Valid() && state == old(state).LowerVolume()
    {
      SetState(state.LowerVolume());
    }

    method ToggleMute()
      requires Valid()
      modifies this
      ensures Valid() && state == old(state).ToggleMute()
    {
      SetState(state.ToggleMute());
    }

    method TogglePower()
      requires Valid()
      modifies this
      ensures Valid() && state == old(state).TogglePower()
    {
      SetState(state.TogglePower());
    }
  }

  /** The four buttons a user can press. */
  datatype Button = PowerButton | VolumeUp | VolumeDown | MuteButton

  function Press(s: TelevisionState, b: Button): (r: TelevisionState)
    requires s.Valid()
    ensures r.Valid()
  {
    match b
    case PowerButton => s.TogglePower()
    case VolumeUp => s.IncreaseVolume()
    case VolumeDown => s.LowerVolume()
    case MuteButton => s.ToggleMute()
  }

  function PressAll(s: TelevisionState, bs: seq<Button>): TelevisionState
    requires s.Valid()
    decreases bs
  {
    if bs == [] then s else PressAll(Press(s, bs[0]), bs[1..])
  }

  /** Whatever buttons are pressed, a powered television's volume stays within 0..10. */
  lemma {:induction false} VolumeAlwaysInRange(s: TelevisionState, bs: seq<Button>)
    requires s.Valid()
    ensures PressAll(s, bs).Valid()
    ensures PressAll(s, bs).Powered() ==> MinimumVolume <= PressAll(s, bs).volume <= MaximumVolume
    decreases bs
  {
    if bs != [] {
      VolumeAlwaysInRange(Press(s, bs[0]), bs[1..]);
    }
  }

  /** Pressing any number of buttons other than power never switches a television on or off. */
  lemma {:induction false} OnlyPowerChangesPower(s: TelevisionState, bs: seq<Button>)
    requires s.Valid()
    requires forall i :: 0 <= i < |bs| ==> bs[i] != PowerButton
    ensures PressAll(s, bs).Powered() == s.Powered()
    ensures !s.Powered() ==> PressAll(s, bs) == s
    decreases bs
  {
    if bs != [] {
      OnlyPowerChangesPower(Press(s, bs[0]), bs[1..]);
    }
  }

  /** Muting twice returns to the same state. */
  lemma ToggleMuteTwice(s: TelevisionState)
    requires s.Valid()
    ensures s.ToggleMute().ToggleMute() == s
  {
  }

  /** Adjusting the volume while muted is the same as unmuting and then adjusting. */
  lemma MutedAdjustUnmutesFirst(v: int)
    requires MinimumVolume <= v <= MaximumVolume
    ensures MutedState(v).IncreaseVolume() == OnState(v).IncreaseVolume()
    ensures MutedState(v).LowerVolume() == OnState(v).LowerVolume()
    ensures MutedState(v).IncreaseVolume() == MutedState(v).ToggleMute().IncreaseVolume()
  {
  }

  /** Stepping up then down, below the maximum, restores the on state. */
  lemma IncreaseThenLower(v: int)
    requires MinimumVolume <= v < MaximumVolume
    ensures OnState(v).IncreaseVolume().LowerVolume() == OnState(v)
  {
  }

  /** The walk-through of a television's life exercised by the example scenario. */
  lemma Scenario()
    ensures var s0 := PressAll(OffState, [VolumeDown, VolumeUp, MuteButton]);
            s0 == OffState
    ensures var s1 := PressAll(OffState, [PowerButton]);
            s1 == OnState(2) && s1.Muted() == Some(false)
    ensures PressAll(OnState(2), [VolumeDown, VolumeDown, VolumeDown]) == OnState(0)
    ensures PressAll(OnState(0), [VolumeUp, VolumeUp, VolumeUp]) == OnState(3)
    ensures PressAll(OnState(3), [MuteButton]) == MutedState(3)
    ensures PressAll(MutedState(3), [VolumeUp]) == OnState(4)
    ensures PressAll(OnState(4), [MuteButton, MuteButton]) == OnState(4)
    ensures PressAll(OnState(4), [PowerButton]) == OffState
  {
  }
}
