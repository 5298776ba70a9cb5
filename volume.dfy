/** The volume controller's state and its two operations as functions: the clamped
    volume step (`alsa_volume_delta`) and the mute toggle (`asla_mute_toggle`). */
module Volume {

  /** Volume of the first playback channel (a percentage), the native mute switch, and
      the volume stored by a simulated mute (`muted_vol`; 0 = not simulated-muted). */
  datatype VolumeState = VolumeState(volume: int, mute: bool, mutedVol: int)

  const MinVolume: int := 0
  const MaxVolume: int := 100

  /** The state the daemon keeps: both volumes are percentages. */
  predicate InRange(s: VolumeState) {
    MinVolume <= s.volume <= MaxVolume && MinVolume <= s.mutedVol <= MaxVolume
  }

  /** `max(0, min(100, current + delta))`. */
  function ClampedVolume(current: int, delta: int): (r: int)
    ensures MinVolume <= r <= MaxVolume
    ensures MinVolume <= current + delta <= MaxVolume ==> r == current + delta
    ensures current + delta > MaxVolume ==> r == MaxVolume
    ensures current + delta < MinVolume ==> r == MinVolume
  {
    var upper := if current + delta < MaxVolume then current + delta else MaxVolume;
    if upper > MinVolume then upper else MinVolume
  }

  /** The volume deltas the command line accepts: `range(0, 26, 5)` without its first
      element. */
  function DeltaChoices(): (r: seq<int>)
    ensures r == [5, 10, 15, 20, 25]
  {
    RangeStep(0, 26, 5)[1..]
  }

  /** Python's `range(lo, hi, step)` for a positive step. */
  function RangeStep(lo: int, hi: int, step: int): (r: seq<int>)
    requires step > 0
    ensures forall i :: 0 <= i < |r| ==> lo <= r[i] < hi
    ensures forall i :: 0 < i < |r| ==> r[i] == r[i - 1] + step
    ensures lo < hi <==> |r| > 0
    ensures lo < hi ==> r[0] == lo && r[|r| - 1] + step >= hi
    decreases hi - lo
  {
    if lo < hi then [lo] + RangeStep(lo + step, hi, step) else []
  }

  /** The volume step: only the volume changes. */
  function Adjusted(s: VolumeState, delta: int): (r: VolumeState)
    ensures r.volume == ClampedVolume(s.volume, delta)
    ensures r.mute == s.mute && r.mutedVol == s.mutedVol
  {
    s.(volume := ClampedVolume(s.volume, delta))
  }

  /** The mute toggle. With a native switch the switch flips. Without one, a nonzero
      volume is stored and zeroed (mute), a zero volume is restored from the stored one
      (unmute), and otherwise nothing changes. Seen whole, the simulated toggle swaps
      the volume and the stored volume unless both are nonzero. */
  function Toggled(s: VolumeState, nativeMute: bool): (r: VolumeState)
    ensures nativeMute ==> r.mute == !s.mute && r.volume == s.volume && r.mutedVol == s.mutedVol
    ensures !nativeMute ==> r.mute == s.mute
    ensures !nativeMute ==>
      if s.volume != 0 && s.mutedVol != 0 then r == s
      else r.volume == s.mutedVol && r.mutedVol == s.volume
  {
    if nativeMute then s.(mute := !s.mute)
    else if s.mutedVol == 0 && s.volume != 0 then s.(mutedVol := s.volume, volume := 0)
    else if s.mutedVol != 0 && s.volume == 0 then s.(volume := s.mutedVol, mutedVol := 0)
    else s
  }

  /** Both operations keep the volumes percentages. */
  lemma OperationsKeepRange(s: VolumeState, delta: int, nativeMute: bool)
    requires InRange(s)
    ensures InRange(Adjusted(s, delta)) && InRange(Toggled(s, nativeMute))
  {
  }

  /** At the bounds the step is idempotent: raising at 100 and lowering at 0 do nothing. */
  lemma AdjustIdempotentAtBounds(s: VolumeState, delta: int)
    requires (s.volume == MaxVolume && delta >= 0) || (s.volume == MinVolume && delta <= 0)
    ensures Adjusted(s, delta) == s
  {
  }

  /** Away from the bounds a step is undone by the opposite step. */
  lemma AdjustUndone(s: VolumeState, delta: int)
    requires MinVolume <= s.volume + delta <= MaxVolume && InRange(s)
    ensures Adjusted(Adjusted(s, delta), -delta) == s
  {
  }

  /** Toggling twice returns to the starting state, on either path. */
  lemma ToggleInvolution(s: VolumeState, nativeMute: bool)
    ensures Toggled(Toggled(s, nativeMute), nativeMute) == s
  {
  }

  /** Simulated mute round trip: from volume v > 0 with nothing stored, mute then unmute
      restores v exactly and leaves nothing stored, passing through volume 0. */
  lemma SimulatedMuteRoundTrip(v: int, mute: bool)
    requires v != 0
    ensures Toggled(VolumeState(v, mute, 0), false) == VolumeState(0, mute, v)
    ensures Toggled(VolumeState(0, mute, v), false) == VolumeState(v, mute, 0)
  {
  }

  /** The simulated toggle never makes the volume and the stored volume both nonzero. */
  lemma SimulatedToggleNeverBothNonzero(s: VolumeState)
    requires s.volume == 0 || s.mutedVol == 0
    ensures Toggled(s, false).volume == 0 || Toggled(s, false).mutedVol == 0
  {
  }
}
