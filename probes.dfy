/** Capability probes: does a mixer control advertise playback volume or a native mute
    switch, and does an input device report the volume-up key. */
module Probes {
  import opened Wrappers
  import opened Ecodes

  /** Volume capability tags that mean "playback volume". */
  const PlaybackVolumeCaps: seq<string> :=
    ["Volume", "Joined Volume", "Playback Volume", "Joined Playback Volume"]

  /** Switch capability tags that mean "native playback mute". */
  const PlaybackMuteCaps: seq<string> :=
    ["Mute", "Joined Mute", "Playback Mute", "Joined Playback Mute"]

  /** The tags of `caps` that are in `whitelist` (the list comprehension of both mixer
      probes). */
  function MatchingCaps(caps: seq<string>, whitelist: seq<string>): (r: seq<string>)
    ensures |r| <= |caps|
    ensures forall t :: t in r <==> t in caps && t in whitelist
    ensures r == [] <==> forall t :: t in caps ==> t !in whitelist
  {
    if caps == [] then []
    else if caps[0] in whitelist then [caps[0]] + MatchingCaps(caps[1..], whitelist)
    else MatchingCaps(caps[1..], whitelist)
  }

  /** A control supports playback volume iff one of its volume tags is whitelisted. */
  function SupportsPlaybackVolume(volumeCaps: seq<string>): (b: bool)
    ensures b <==> exists t :: t in volumeCaps && t in PlaybackVolumeCaps
    ensures volumeCaps == [] ==> !b
  {
    |MatchingCaps(volumeCaps, PlaybackVolumeCaps)| > 0
  }

  /** A control has a native mute switch iff one of its switch tags is whitelisted. */
  function SupportsPlaybackMute(switchCaps: seq<string>): (b: bool)
    ensures b <==> exists t :: t in switchCaps && t in PlaybackMuteCaps
    ensures switchCaps == [] ==> !b
  {
    |MatchingCaps(switchCaps, PlaybackMuteCaps)| > 0
  }

  /** An input device supports volume control iff its capability map has an `EV_KEY`
      entry and that entry lists `KEY_VOLUMEUP`; `KEY_VOLUMEDOWN` is not looked at. */
  function SupportsVolumeControl(capabilities: map<int, seq<int>>): (b: bool)
    ensures EV_KEY !in capabilities ==> !b
    ensures EV_KEY in capabilities ==> (b <==> KEY_VOLUMEUP in capabilities[EV_KEY])
  {
    var keyCaps := if EV_KEY in capabilities then Some(capabilities[EV_KEY]) else None;
    keyCaps.Some? && KEY_VOLUMEUP in keyCaps.value
  }

  /** Adding or removing `KEY_VOLUMEDOWN` from the key list never changes the verdict. */
  lemma VolumeDownNotChecked(capabilities: map<int, seq<int>>, keys: seq<int>)
    requires EV_KEY in capabilities
    requires forall k :: k in keys <==> k in capabilities[EV_KEY] || k == KEY_VOLUMEDOWN
    ensures SupportsVolumeControl(capabilities[EV_KEY := keys]) == SupportsVolumeControl(capabilities)
  {
  }
}
