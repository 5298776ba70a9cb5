/** Dispatching key events to the volume controller (`do_event_loop`). */
module EventLoop {
  import opened Ecodes
  import opened Volume
  import opened AlsaMixer

  /** One raw evdev event: its type, its code and its value (for key events, the key
      state: up, down or hold). */
  datatype InputEvent = InputEvent(kind: int, code: int, value: int)

  /** How event processing ends: a press of the power key, or the end of the event
      stream (where the live daemon blocks or loses the device). */
  datatype Outcome = PoweredOff | Exhausted

  /** Only key events that are not key-up (a press or an auto-repeat hold) are acted on. */
  predicate IsKeyPress(e: InputEvent) {
    e.kind == EV_KEY && e.value != KEY_STATE_UP
  }

  predicate IsPowerPress(e: InputEvent) {
    IsKeyPress(e) && e.code == KEY_POWER
  }

  /** The effect of one event other than a power press: only volume and mute presses
      change anything, and the volumes stay percentages. */
  function Step(s: VolumeState, nativeMute: bool, volumeDelta: int, e: InputEvent): (r: VolumeState)
    ensures !IsKeyPress(e) || e.code !in {KEY_VOLUMEUP, KEY_VOLUMEDOWN, KEY_MUTE} ==> r == s
    ensures IsKeyPress(e) && e.code in {KEY_VOLUMEUP, KEY_VOLUMEDOWN} ==> r.mute == s.mute && r.mutedVol == s.mutedVol
    ensures InRange(s) ==> InRange(r)
  {
    if !IsKeyPress(e) then s
    else if e.code == KEY_VOLUMEUP then Adjusted(s, volumeDelta)
    else if e.code == KEY_VOLUMEDOWN then Adjusted(s, -volumeDelta)
    else if e.code == KEY_MUTE then Toggled(s, nativeMute)
    else s
  }

  /** Processing a stream of events: each is applied in turn until a power press,
      which ends processing with the state as it was. */
  function Dispatch(s: VolumeState, nativeMute: bool, volumeDelta: int, events: seq<InputEvent>)
    : (r: (VolumeState, Outcome))
    ensures r.1 == PoweredOff <==> exists i :: 0 <= i < |events| && IsPowerPress(events[i])
    ensures InRange(s) ==> InRange(r.0)
    decreases events
  {
    if events == [] then (s, Exhausted)
    else if IsPowerPress(events[0]) then (s, PoweredOff)
    else
      var r := Dispatch(Step(s, nativeMute, volumeDelta, events[0]), nativeMute, volumeDelta, events[1..]);
      assert forall i :: 0 < i < |events| ==> events[i] == events[1..][i - 1];
      r
  }

  /** The event loop: walk the events, apply volume and mute keys to the mixer, and stop
      at the first power press. */
  method DoEventLoop(mixer: Mixer, volumeDelta: int, events: seq<InputEvent>) returns (outcome: Outcome)
    requires mixer.Valid()
    modifies mixer
    ensures mixer.Valid()
    ensures (mixer.State(), outcome) == Dispatch(old(mixer.State()), mixer.NativeMute(), volumeDelta, events)
  {
    var i := 0;
    while i < |events|
      invariant 0 <= i <= |events|
      invariant mixer.Valid()
      invariant Dispatch(old(mixer.State()), mixer.NativeMute(), volumeDelta, events)
             == Dispatch(mixer.State(), mixer.NativeMute(), volumeDelta, events[i..])
    {
      var event := events[i];
      assert events[i..][0] == event && events[i..][1..] == events[i + 1..];
      if event.kind == EV_KEY {
        if event.value != KEY_STATE_UP {
          if event.code == KEY_VOLUMEUP {
            mixer.AdjustVolume(volumeDelta);
          } else if event.code == KEY_VOLUMEDOWN {
            mixer.AdjustVolume(-volumeDelta);
          } else if event.code == KEY_MUTE {
            mixer.ToggleMute();
          } else if event.code == KEY_POWER {
            return PoweredOff;
          }
        }
      }
      i := i + 1;
    }
    return Exhausted;
  }

  /** Processing a concatenation is processing the first part and, unless it powered
      off, carrying on with the second from the state it left. */
  lemma {:induction false} DispatchConcat(s: VolumeState, nativeMute: bool, volumeDelta: int,
                                          first: seq<InputEvent>, second: seq<InputEvent>)
    ensures Dispatch(s, nativeMute, volumeDelta, first + second) ==
      var r := Dispatch(s, nativeMute, volumeDelta, first);
      if r.1 == PoweredOff then r else Dispatch(r.0, nativeMute, volumeDelta, second)
    decreases first
  {
    if first != [] {
      assert (first + second)[0] == first[0];
      assert (first + second)[1..] == first[1..] + second;
      if !IsPowerPress(first[0]) {
        DispatchConcat(Step(s, nativeMute, volumeDelta, first[0]), nativeMute, volumeDelta, first[1..], second);
      }
    } else {
      assert first + second == second;
    }
  }

  /** Nothing after a power press is applied: events following it change neither the
      final state nor the outcome. */
  lemma NothingAfterPowerOff(s: VolumeState, nativeMute: bool, volumeDelta: int,
                             before: seq<InputEvent>, power: InputEvent, after: seq<InputEvent>)
    requires IsPowerPress(power)
    ensures Dispatch(s, nativeMute, volumeDelta, before + [power] + after)
         == Dispatch(s, nativeMute, volumeDelta, before + [power])
    ensures Dispatch(s, nativeMute, volumeDelta, before + [power]).1 == PoweredOff
  {
    DispatchConcat(s, nativeMute, volumeDelta, before + [power], after);
    assert (before + [power])[|before|] == power;
  }

  /** A power press stops processing at once, whatever follows, leaving the state as it was. */
  lemma PowerPressStopsAtOnce(s: VolumeState, nativeMute: bool, volumeDelta: int,
                              power: InputEvent, after: seq<InputEvent>)
    requires IsPowerPress(power)
    ensures Dispatch(s, nativeMute, volumeDelta, [power] + after) == (s, PoweredOff)
  {
  }

  /** Events that are not key events, key releases and key codes the daemon does not
      handle have no effect. */
  lemma IgnoredEventHasNoEffect(s: VolumeState, nativeMute: bool, volumeDelta: int,
                                e: InputEvent, rest: seq<InputEvent>)
    requires !IsKeyPress(e) || e.code !in {KEY_VOLUMEUP, KEY_VOLUMEDOWN, KEY_MUTE, KEY_POWER}
    ensures Dispatch(s, nativeMute, volumeDelta, [e] + rest) == Dispatch(s, nativeMute, volumeDelta, rest)
  {
  }

  /** The three handled keys: volume up raises by the delta, volume down lowers by it,
      mute toggles. */
  lemma HandledKeys(s: VolumeState, nativeMute: bool, volumeDelta: int, e: InputEvent, rest: seq<InputEvent>)
    requires IsKeyPress(e) && e.code in {KEY_VOLUMEUP, KEY_VOLUMEDOWN, KEY_MUTE}
    ensures Dispatch(s, nativeMute, volumeDelta, [e] + rest) == Dispatch(
      if e.code == KEY_VOLUMEUP then Adjusted(s, volumeDelta)
      else if e.code == KEY_VOLUMEDOWN then Adjusted(s, -volumeDelta)
      else Toggled(s, nativeMute),
      nativeMute, volumeDelta, rest)
  {
  }

  /** A volume-up press with delta 10 at volume 95 sets the volume to 100, not 105. */
  lemma VolumeUpClampsAt100(mute: bool, mutedVol: int, nativeMute: bool)
    ensures Dispatch(VolumeState(95, mute, mutedVol), nativeMute, 10,
                     [InputEvent(EV_KEY, KEY_VOLUMEUP, KEY_STATE_DOWN)])
         == (VolumeState(100, mute, mutedVol), Exhausted)
  {
  }

  /** Without a native switch, mute then volume-up leaves a volume and a stored volume
      that are both nonzero; a further mute press is then the explicit no-op. */
  lemma MuteAfterRaisingIsNoOp(v: int, mute: bool, volumeDelta: int)
    requires 0 < v <= MaxVolume && 0 < volumeDelta <= MaxVolume
    ensures
      var press := (code: int) => InputEvent(EV_KEY, code, KEY_STATE_DOWN);
      Dispatch(VolumeState(v, mute, 0), false, volumeDelta,
               [press(KEY_MUTE), press(KEY_VOLUMEUP), press(KEY_MUTE)])
        == (VolumeState(volumeDelta, mute, v), Exhausted)
  {
    var press := (code: int) => InputEvent(EV_KEY, code, KEY_STATE_DOWN);
    var events := [press(KEY_MUTE), press(KEY_VOLUMEUP), press(KEY_MUTE)];
    DispatchConcat(VolumeState(v, mute, 0), false, volumeDelta, [events[0]], events[1..]);
    DispatchConcat(VolumeState(0, mute, v), false, volumeDelta, [events[1]], events[2..]);
    assert [events[0]] + events[1..] == events;
    assert [events[1]] + events[2..] == events[1..];
    assert [events[0]][1..] == [] && [events[1]][1..] == [] && events[2..][1..] == [];
  }
}
