/** The selected mixer control as a live object: the daemon reads and writes its
    volume and mute switch in place, and keeps the simulated-mute store beside it. */
module AlsaMixer {
  import opened Probes
  import opened MixerSelection
  import opened Volume

  class Mixer {
    const name: string
    const volumeCaps: seq<string>
    const switchCaps: seq<string>
    /** Volume of the control, read from its first channel and written to all of them. */
    var volume: int
    /** The native mute switch (meaningful only when the control has one). */
    var mute: bool
    /** The volume stored by a simulated mute; 0 means not simulated-muted. It is a
        process-wide variable in the daemon, initialised to 0, touched only by the toggle. */
    var mutedVol: int

    ghost predicate Valid()
      reads this
    {
      InRange(State())
    }

    function State(): VolumeState
      reads this
    {
      VolumeState(volume, mute, mutedVol)
    }

    /** Whether the toggle uses the control's own switch. */
    predicate NativeMute() {
      SupportsPlaybackMute(switchCaps)
    }

    /** Opening a selected control: its hardware state, with nothing stored yet. */
    constructor (control: MixerControl)
      requires MinVolume <= control.volume <= MaxVolume
      ensures Valid()
      ensures name == control.name && volumeCaps == control.volumeCaps && switchCaps == control.switchCaps
      ensures State() == VolumeState(control.volume, control.mute, 0)
    {
      name := control.name;
      volumeCaps := control.volumeCaps;
      switchCaps := control.switchCaps;
      volume := control.volume;
      mute := control.mute;
      mutedVol := 0;
    }

    /** `alsa_volume_delta`: move the volume by `delta` percent, clamped to [0, 100]. */
    method AdjustVolume(delta: int)
      requires Valid()
      modifies this
      ensures Valid()
      ensures State() == Adjusted(old(State()), delta)
    {
      var currentVol := volume;
      var newVol := ClampedVolume(currentVol, delta);
      volume := newVol;
    }

    /** `asla_mute_toggle`: flip the native switch, or simulate mute through the volume. */
    method ToggleMute()
      requires Valid()
      modifies this
      ensures Valid()
      ensures State() == Toggled(old(State()), NativeMute())
    {
      if NativeMute() {
        var currentMute := mute;
        mute := !currentMute;
      } else {
        var currentVol := volume;
        var newVol := currentVol;
        if mutedVol == 0 && currentVol != 0 {
          mutedVol := currentVol;
          newVol := 0;
        } else if mutedVol != 0 && currentVol == 0 {
          newVol := mutedVol;
          mutedVol := 0;
        }
        volume := newVol;
      }
    }
  }
}
