/** The daemon's top level (`start`): acquire the mixer once, then repeatedly acquire an
    input device and process its events until a power press. */
module Supervisor {
  import opened Wrappers
  import opened Probes
  import opened MixerSelection
  import opened InputSelection
  import opened Volume
  import opened AlsaMixer
  import opened EventLoop

  /** One pass of the reconnect loop: the device nodes present when the input device is
      sought, and the events read from it until the connection is lost. */
  datatype Attempt = Attempt(nodes: map<string, NodeStatus>, listed: seq<string>, events: seq<InputEvent>)

  /** How a run ends: no usable mixer (the process exits with `ERROR_NO_ALSA_MIXER`),
      a power press (the power-off command runs and the process exits normally), or the
      attempts run out with the daemon still looping. */
  datatype DaemonResult = NoMixer | PowerOff(final: VolumeState) | Running(final: VolumeState)

  /** The reconnect loop over a finite run of attempts: an attempt that finds no device is
      retried, one that loses its device goes round again, a power press ends the loop. */
  function Supervise(s: VolumeState, nativeMute: bool, volumeDelta: int, inputPath: Option<string>,
                     attempts: seq<Attempt>): (r: (VolumeState, Outcome))
    ensures InRange(s) ==> InRange(r.0)
    decreases attempts
  {
    if attempts == [] then (s, Exhausted)
    else
      var a := attempts[0];
      if GetUsbHidInput(a.nodes, a.listed, inputPath).None? then
        Supervise(s, nativeMute, volumeDelta, inputPath, attempts[1..])
      else
        var r := Dispatch(s, nativeMute, volumeDelta, a.events);
        if r.1 == PoweredOff then r else Supervise(r.0, nativeMute, volumeDelta, inputPath, attempts[1..])
  }

  /** The events of every attempt that acquired a device, in order. */
  function ConnectedEvents(inputPath: Option<string>, attempts: seq<Attempt>): seq<InputEvent> {
    if attempts == [] then []
    else
      var a := attempts[0];
      (if GetUsbHidInput(a.nodes, a.listed, inputPath).None? then [] else a.events)
        + ConnectedEvents(inputPath, attempts[1..])
  }

  /** The mixer outlives every reconnection: the loop acts exactly like one event loop
      over the events of all connections joined end to end. Failed acquisitions leave no
      trace, and a lost connection does not end the run. */
  lemma {:induction false} SuperviseIsOneDispatch(s: VolumeState, nativeMute: bool, volumeDelta: int,
                                                  inputPath: Option<string>, attempts: seq<Attempt>)
    ensures Supervise(s, nativeMute, volumeDelta, inputPath, attempts)
         == Dispatch(s, nativeMute, volumeDelta, ConnectedEvents(inputPath, attempts))
    decreases attempts
  {
    if attempts != [] {
      var a := attempts[0];
      var here := if GetUsbHidInput(a.nodes, a.listed, inputPath).None? then [] else a.events;
      var later := ConnectedEvents(inputPath, attempts[1..]);
      DispatchConcat(s, nativeMute, volumeDelta, here, later);
      var r := Dispatch(s, nativeMute, volumeDelta, here);
      if r.1 != PoweredOff {
        SuperviseIsOneDispatch(r.0, nativeMute, volumeDelta, inputPath, attempts[1..]);
      }
    }
  }

  /** Input acquisition is retried for as long as it fails: a run of failed attempts
      neither ends the loop nor changes the state. */
  lemma {:induction false} RetriesDoNotTerminate(s: VolumeState, nativeMute: bool, volumeDelta: int,
                                                 inputPath: Option<string>, failed: seq<Attempt>,
                                                 rest: seq<Attempt>)
    requires forall i :: 0 <= i < |failed| ==>
      GetUsbHidInput(failed[i].nodes, failed[i].listed, inputPath).None?
    ensures Supervise(s, nativeMute, volumeDelta, inputPath, failed + rest)
         == Supervise(s, nativeMute, volumeDelta, inputPath, rest)
    decreases failed
  {
    if failed != [] {
      assert (failed + rest)[0] == failed[0];
      assert (failed + rest)[1..] == failed[1..] + rest;
      RetriesDoNotTerminate(s, nativeMute, volumeDelta, inputPath, failed[1..], rest);
    } else {
      assert failed + rest == rest;
    }
  }

  /** What a whole run of the daemon comes to. */
  function RunDaemon(card: AlsaCard, controlName: Option<string>, inputPath: Option<string>,
                     volumeDelta: int, attempts: seq<Attempt>): (r: DaemonResult)
    ensures r == NoMixer <==> SelectMixer(card, controlName).None?
    ensures SelectMixer(card, controlName).Some? ==>
      (r.PowerOff? <==> exists e :: e in ConnectedEvents(inputPath, attempts) && IsPowerPress(e))
  {
    match SelectMixer(card, controlName)
    case None => NoMixer
    case Some(c) =>
      var s := VolumeState(c.volume, c.mute, 0);
      var native := SupportsPlaybackMute(c.switchCaps);
      SuperviseIsOneDispatch(s, native, volumeDelta, inputPath, attempts);
      var r := Supervise(s, native, volumeDelta, inputPath, attempts);
      if r.1 == PoweredOff then PowerOff(r.0) else Running(r.0)
  }

  /** The reconnect loop, driving the mixer object. */
  method Serve(mixer: Mixer, volumeDelta: int, inputPath: Option<string>, attempts: seq<Attempt>)
    returns (outcome: Outcome)
    requires mixer.Valid()
    modifies mixer
    ensures mixer.Valid()
    ensures (mixer.State(), outcome)
         == Supervise(old(mixer.State()), mixer.NativeMute(), volumeDelta, inputPath, attempts)
  {
    var i := 0;
    while i < |attempts|
      invariant 0 <= i <= |attempts|
      invariant mixer.Valid()
      invariant Supervise(old(mixer.State()), mixer.NativeMute(), volumeDelta, inputPath, attempts)
             == Supervise(mixer.State(), mixer.NativeMute(), volumeDelta, inputPath, attempts[i..])
    {
      var a := attempts[i];
      assert attempts[i..][0] == a && attempts[i..][1..] == attempts[i + 1..];
      var inputDev := GetUsbHidInput(a.nodes, a.listed, inputPath);
      if inputDev.Some? {
        var result := DoEventLoop(mixer, volumeDelta, a.events);
        if result == PoweredOff {
          return PoweredOff;
        }
      }
      i := i + 1;
    }
    return Exhausted;
  }

  /** `start`: acquire the mixer or give up, then serve input devices. */
  method Start(card: AlsaCard, controlName: Option<string>, inputPath: Option<string>,
               volumeDelta: int, attempts: seq<Attempt>) returns (result: DaemonResult)
    requires card.Card? ==> forall c :: c in card.controls ==> MinVolume <= c.volume <= MaxVolume
    ensures result == RunDaemon(card, controlName, inputPath, volumeDelta, attempts)
  {
    var control := GetAlsaMixer(card, controlName);
    if control.None? {
      return NoMixer;
    }
    var mixer := new Mixer(control.value);
    var outcome := Serve(mixer, volumeDelta, inputPath, attempts);
    result := if outcome == PoweredOff then PowerOff(mixer.State()) else Running(mixer.State());
  }
}
