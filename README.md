# alsa_volume_from_usb_hid — a verified model of the control logic

The daemon turns key presses on a USB HID consumer-control device (volume up, volume
down, mute, power) into changes of an ALSA mixer control. This project models, in Dafny,
the daemon's decision logic and proves its properties:

- the capability probes: does a mixer control advertise a playback-volume tag or a
  native mute switch, and does an input device report `KEY_VOLUMEUP` (`Probes`);
- the choice of mixer control: the first control, opened by an enumerated name, that
  supports playback volume, or the named control if it qualifies, with no fallback (`MixerSelection`, a loop proved
  against a search function);
- the choice of input device: first device on the USB bus (`bustype == 3`) that reports
  `KEY_VOLUMEUP`, or the explicitly given path even when it fails that probe; a missing
  or forbidden node yields nothing (`InputSelection`);
- the volume controller: a `Mixer` class whose methods clamp volume steps into [0, 100]
  and toggle mute, natively or by the simulated-mute state machine whose store
  (`muted_vol`, a process-wide variable in the daemon) is a field here (`AlsaMixer`,
  specified by the pure functions of `Volume`);
- the event loop: a method over a sequence of evdev events that applies volume and mute
  keys and stops at the first power press (`EventLoop`);
- the reconnect loop: attempts to acquire an input device, each followed by its event
  stream, proved to behave as one event loop over all connections (`Supervisor`).

Constants are those of the Linux input subsystem: `EV_KEY = 1`, `KEY_MUTE = 113`,
`KEY_VOLUMEDOWN = 114`, `KEY_VOLUMEUP = 115`, `KEY_POWER = 116`, key state up `= 0`
(down `= 1` and auto-repeat hold `= 2` are both acted on), `BUS_USB = 3`.

Consequences of the code worth knowing:

- The stored volume and the volume can both be nonzero: mute, then volume up, leaves
  both nonzero, and the next mute press is the explicit no-op
  (`EventLoop.MuteAfterRaisingIsNoOp`); the simulated toggle alone preserves "not both
  nonzero" (`Volume.SimulatedToggleNeverBothNonzero`).
- In the automatic input search every listed node is opened before filtering, so a
  missing or forbidden node anywhere in the listing makes the whole search return
  nothing, even when a qualifying device is present (`InputSelection.AutomaticSearchOpenFailure`).
- The automatic mixer search opens each enumerated NAME, and opening a name yields the
  first control of that name; a later control sharing the name is never examined
  (`MixerSelection.SharedNameShadowsLaterControl`).

## Model

| member | source | states |
|---|---|---|
| Probes.MatchingCaps | src/alsa_vol_from_usb_hid.py:90-99 | the comprehension keeps exactly the tags that are in the whitelist, and is empty iff no tag is |
| Probes.SupportsPlaybackVolume | src/alsa_vol_from_usb_hid.py:86-93 | true iff some volume tag is one of Volume, Joined Volume, Playback Volume, Joined Playback Volume; false for no tags |
| Probes.SupportsPlaybackMute | src/alsa_vol_from_usb_hid.py:95-102 | true iff some switch tag is one of Mute, Joined Mute, Playback Mute, Joined Playback Mute; false for no tags |
| Probes.SupportsVolumeControl | src/alsa_vol_from_usb_hid.py:130-136 | false without an EV_KEY entry; otherwise true iff KEY_VOLUMEUP is among the key codes |
| Probes.VolumeDownNotChecked | src/alsa_vol_from_usb_hid.py:130-136 | adding KEY_VOLUMEDOWN to the key codes never changes the verdict |
| MixerSelection.OpenControl | src/alsa_vol_from_usb_hid.py:120-127 | opening a named control yields a control of that name, and fails exactly when the card has none |
| MixerSelection.ControlNames | src/alsa_vol_from_usb_hid.py:112 | the enumerated names are the controls' names, one per control, in card order |
| MixerSelection.FirstPlaybackControl | src/alsa_vol_from_usb_hid.py:110-117 | the search returns the control that opening one of the listed names gives, and it supports playback volume; it returns nothing iff no listed name opens such a control |
| MixerSelection.FirstPlaybackControlIsFirst | src/alsa_vol_from_usb_hid.py:112-117 | the result is what the first qualifying name, in enumeration order, opens |
| MixerSelection.OpenControlOwnName | src/alsa_vol_from_usb_hid.py:113 | opening a control's own name yields that control when no earlier control shares the name |
| MixerSelection.DistinctNamesFirstControl | src/alsa_vol_from_usb_hid.py:110-117 | with distinct control names, the first control in enumeration order that supports playback volume is selected |
| MixerSelection.SharedNameShadowsLaterControl | src/alsa_vol_from_usb_hid.py:112-117 | two controls named "PCM", only the second with playback volume: nothing is selected, since both names open the first |
| MixerSelection.SelectMixer | src/alsa_vol_from_usb_hid.py:104-128 | any mixer returned is a control of the card that supports playback volume, is what opening its name gives, and has the requested name when one was given; an unavailable card yields nothing |
| MixerSelection.GetAlsaMixer | src/alsa_vol_from_usb_hid.py:104-128 | the for/break loop over enumerated names and the named-control branch compute exactly SelectMixer |
| MixerSelection.NamedControlNoFallback | src/alsa_vol_from_usb_hid.py:118-124 | with a control named, the result is that control if it supports playback volume and nothing otherwise; no other control is tried |
| MixerSelection.ThirdOfThreeSelected | src/alsa_vol_from_usb_hid.py:110-117 | of three controls where only the third has "Playback Volume", the third is chosen |
| InputSelection.OpenDevice | src/alsa_vol_from_usb_hid.py:153-158 | a path with no device node opens as not found |
| InputSelection.OpenAll | src/alsa_vol_from_usb_hid.py:146 | opening the listed nodes succeeds iff every node opens, and then yields their devices in listing order |
| InputSelection.UsbVolumeDevices | src/alsa_vol_from_usb_hid.py:148 | the filter keeps exactly the USB devices reporting KEY_VOLUMEUP, and is empty iff there are none |
| InputSelection.UsbVolumeDevicesHead | src/alsa_vol_from_usb_hid.py:148-150 | the head of the filtered list is the first qualifying device |
| InputSelection.GetUsbHidInput | src/alsa_vol_from_usb_hid.py:138-163 | an automatically found device is on USB and reports KEY_VOLUMEUP; with a path given, the result is the device at that path if the node opens and nothing otherwise |
| InputSelection.AutomaticSearchFindsFirst | src/alsa_vol_from_usb_hid.py:144-150 | when every listed node opens, the first qualifying device in listing order is returned |
| InputSelection.AutomaticSearchNoMatch | src/alsa_vol_from_usb_hid.py:144-150 | when every listed node opens and none qualifies, nothing is returned |
| InputSelection.AutomaticSearchOpenFailure | src/alsa_vol_from_usb_hid.py:146-162 | a not-found or permission-denied node anywhere in the listing makes the automatic search return nothing |
| InputSelection.ExplicitPathSkipsProbe | src/alsa_vol_from_usb_hid.py:151-155 | an explicit path is used even when its device fails the volume probe |
| InputSelection.SecondOfThreeSelected | src/alsa_vol_from_usb_hid.py:144-150 | of three devices where only the second is USB and reports KEY_VOLUMEUP, the second is chosen |
| Volume.ClampedVolume | src/alsa_vol_from_usb_hid.py:170 | the new volume lies in [0, 100], is current + delta when that is in range, and saturates at 100 or 0 otherwise |
| Volume.RangeStep | src/alsa_vol_from_usb_hid.py:54 | Python's range with a positive step: starts at lo, rises by step, stays below hi and stops only once hi is reached |
| Volume.DeltaChoices | src/alsa_vol_from_usb_hid.py:54 | the accepted volume deltas are exactly 5, 10, 15, 20, 25 |
| Volume.Adjusted | src/alsa_vol_from_usb_hid.py:165-172 | the volume step sets the volume to the clamped sum and leaves the mute switch and the stored volume unchanged |
| Volume.Toggled | src/alsa_vol_from_usb_hid.py:174-202 | native: the switch flips, volume and stored volume unchanged; simulated: the switch is unchanged, and volume and stored volume are swapped unless both are nonzero, when nothing changes |
| Volume.OperationsKeepRange | src/alsa_vol_from_usb_hid.py:165-202 | the volume step and the toggle keep volume and stored volume in [0, 100] |
| Volume.AdjustIdempotentAtBounds | src/alsa_vol_from_usb_hid.py:165-172 | raising at 100 and lowering at 0 leave the state unchanged |
| Volume.AdjustUndone | src/alsa_vol_from_usb_hid.py:170 | a step that does not saturate is undone by the opposite step |
| Volume.ToggleInvolution | src/alsa_vol_from_usb_hid.py:174-202 | toggling twice restores the state, natively or simulated |
| Volume.SimulatedMuteRoundTrip | src/alsa_vol_from_usb_hid.py:186-202 | from volume v > 0 with nothing stored: mute gives volume 0 with v stored, unmute gives back v with nothing stored |
| Volume.SimulatedToggleNeverBothNonzero | src/alsa_vol_from_usb_hid.py:189-200 | the simulated toggle never makes volume and stored volume both nonzero |
| AlsaMixer.Mixer.constructor | src/alsa_vol_from_usb_hid.py:30-33 | a freshly opened mixer holds the control's volume and switch, with the stored volume 0 |
| AlsaMixer.Mixer.AdjustVolume | src/alsa_vol_from_usb_hid.py:165-172 | the mixer's new state is the clamped step of the old one, and stays valid |
| AlsaMixer.Mixer.ToggleMute | src/alsa_vol_from_usb_hid.py:174-202 | the mixer's new state is Toggled of the old one, on the path its switch tags select |
| EventLoop.Step | src/alsa_vol_from_usb_hid.py:220-229 | one non-power event: anything but a volume or mute press leaves the state unchanged, volume keys leave the switch and stored volume alone, and the volumes stay in range |
| EventLoop.Dispatch | src/alsa_vol_from_usb_hid.py:215-231 | processing ends powered off iff some event is a power press, and keeps the volumes in range |
| EventLoop.DoEventLoop | src/alsa_vol_from_usb_hid.py:215-231 | the loop leaves the mixer in the state, and returns the outcome, that Dispatch gives |
| EventLoop.DispatchConcat | src/alsa_vol_from_usb_hid.py:219-231 | processing a concatenation is processing the first part, then the second from where it left off unless it powered off |
| EventLoop.NothingAfterPowerOff | src/alsa_vol_from_usb_hid.py:230-231 | events after a power press change neither the state nor the outcome, which is powered off |
| EventLoop.PowerPressStopsAtOnce | src/alsa_vol_from_usb_hid.py:230-231 | a power press ends processing at once with the state unchanged |
| EventLoop.IgnoredEventHasNoEffect | src/alsa_vol_from_usb_hid.py:220-231 | non-key events, key releases and unhandled key codes have no effect |
| EventLoop.HandledKeys | src/alsa_vol_from_usb_hid.py:224-229 | volume up steps by +delta, volume down by -delta, mute toggles |
| EventLoop.VolumeUpClampsAt100 | src/alsa_vol_from_usb_hid.py:224-225 | a volume-up press with delta 10 at volume 95 gives volume 100 |
| EventLoop.MuteAfterRaisingIsNoOp | src/alsa_vol_from_usb_hid.py:192-200 | simulated mute, then volume up, then mute: the second mute is a no-op and leaves both volumes nonzero |
| Supervisor.Supervise | src/alsa_vol_from_usb_hid.py:252-267 | the reconnect loop keeps the volumes in range |
| Supervisor.SuperviseIsOneDispatch | src/alsa_vol_from_usb_hid.py:252-267 | the reconnect loop acts as one event loop over the events of all connections joined end to end |
| Supervisor.RetriesDoNotTerminate | src/alsa_vol_from_usb_hid.py:254-257 | failed input acquisitions neither end the loop nor change the state |
| Supervisor.RunDaemon | src/alsa_vol_from_usb_hid.py:244-267 | a run ends for want of a mixer iff mixer selection fails; otherwise it powers off iff some connection delivers a power press |
| Supervisor.Serve | src/alsa_vol_from_usb_hid.py:252-267 | the loop leaves the mixer in the state, and returns the outcome, that Supervise gives |
| Supervisor.Start | src/alsa_vol_from_usb_hid.py:244-267 | acquiring the mixer and serving input devices gives exactly RunDaemon |

## Left out

- ALSA and evdev themselves (`Mixer`, `mixers`, `InputDevice`, `list_devices`,
  `read_loop`, `categorize`): a card is a sequence of control records, the device nodes
  a map from path to what opening them yields, an event stream a finite sequence.
- Channels: the volume read from channel 0 and written to all channels is one field.
- Control indices: a control is identified by its name; opening a name yields the first
  control of that name (index 0), as the daemon's calls do. Other indices are not modelled.
- Opening an enumerated control is assumed to succeed; only an unavailable card and a
  missing named control stand for `ALSAAudioError`.
- Errors other than `FileNotFoundError` and `PermissionError` while opening input
  devices, and evdev's key-code lookup inside `categorize`, are not modelled.
- The blocking read and the `OSError` on disconnect: a connection's events are a finite
  sequence whose end stands for the lost device; the infinite reconnect loop runs over
  a finite sequence of attempts, and `Running` means the daemon would go on looping.
- Outside changes to the mixer: the daemon re-reads the volume and the switch before
  every action, but in the model the state changes only through the daemon's own
  writes. Nothing else changes it between events or during a disconnection, and a
  percentage written is read back unchanged (no rounding to hardware steps). The
  multi-event results (`EventLoop.Dispatch`, `EventLoop.MuteAfterRaisingIsNoOp`,
  `Supervisor.SuperviseIsOneDispatch`, `Supervisor.RunDaemon`) hold under that assumption.
- `sleep(1.0)` between failed acquisitions, `on_power_off` and its shell command,
  `parse_args`, `setup_logging`, `print_mixer`, logging, the process exit codes and the
  `KeyboardInterrupt` handling: I/O, timing and process lifecycle.
- Supervisor.Start: requires every control's volume to be a percentage, as ALSA
  reports it in percent; the daemon itself does not check this.
