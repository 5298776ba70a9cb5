/** Choosing the ALSA mixer control the daemon drives (`get_alsa_mixer`). */
module MixerSelection {
  import opened Wrappers
  import opened Probes

  /** One mixer control of a sound card, with the hardware state read when it is opened:
      the volume of its first channel (a percentage) and its mute switch. */
  datatype MixerControl = MixerControl(
    name: string,
    volumeCaps: seq<string>,
    switchCaps: seq<string>,
    volume: int,
    mute: bool)

  /** An ALSA device as the mixer API sees it: either it cannot be opened (every call
      raises `ALSAAudioError`) or it lists its controls in the order the card reports. */
  datatype AlsaCard = Unavailable | Card(controls: seq<MixerControl>)

  predicate HasPlaybackVolume(c: MixerControl) {
    SupportsPlaybackVolume(c.volumeCaps)
  }

  /** Opening a control by name: the first control so named; `None` stands for the
      `ALSAAudioError` raised when the card has no such control. */
  function OpenControl(controls: seq<MixerControl>, name: string): (r: Option<MixerControl>)
    ensures r.Some? ==> r.value in controls && r.value.name == name
    ensures r.None? <==> forall c :: c in controls ==> c.name != name
  {
    if controls == [] then None
    else if controls[0].name == name then Some(controls[0])
    else OpenControl(controls[1..], name)
  }

  /** The names the card enumerates (`mixers()`), one per control, in order. */
  function ControlNames(controls: seq<MixerControl>): (r: seq<string>)
    ensures |r| == |controls|
    ensures forall i :: 0 <= i < |controls| ==> r[i] == controls[i].name
  {
    seq(|controls|, i requires 0 <= i < |controls| => controls[i].name)
  }

  /** Opening `name` gives a control that supports playback volume. */
  predicate OpensWithPlaybackVolume(controls: seq<MixerControl>, name: string) {
    var m := OpenControl(controls, name);
    m.Some? && HasPlaybackVolume(m.value)
  }

  /** The automatic search: open each listed name in turn and keep the first control so
      opened that supports playback volume. */
  function FirstPlaybackControl(controls: seq<MixerControl>, names: seq<string>): (r: Option<MixerControl>)
    ensures r.Some? ==> r.value in controls && HasPlaybackVolume(r.value) && r.value.name in names
    ensures r.Some? ==> r == OpenControl(controls, r.value.name)
    ensures r.None? <==> forall n :: n in names ==> !OpensWithPlaybackVolume(controls, n)
  {
    if names == [] then None
    else if OpensWithPlaybackVolume(controls, names[0]) then OpenControl(controls, names[0])
    else FirstPlaybackControl(controls, names[1..])
  }

  /** What `get_alsa_mixer` returns: with no control named, the first control opened by
      an enumerated name that supports playback volume; with a control named, that
      control if it supports playback volume and nothing otherwise; nothing at all when
      the card cannot be opened. */
  function SelectMixer(card: AlsaCard, controlName: Option<string>): (r: Option<MixerControl>)
    ensures r.Some? ==> card.Card? && r.value in card.controls && HasPlaybackVolume(r.value)
    ensures r.Some? ==> r == OpenControl(card.controls, r.value.name)
    ensures r.Some? && controlName.Some? ==> r.value.name == controlName.value
  {
    match card
    case Unavailable => None
    case Card(controls) =>
      match controlName
      case None => FirstPlaybackControl(controls, ControlNames(controls))
      case Some(name) =>
        var named := OpenControl(controls, name);
        if named.Some? && HasPlaybackVolume(named.value) then named else None
  }

  /** The selection loop: open each enumerated name and stop at the first control that
      supports playback volume, or open and vet the named control. */
  method GetAlsaMixer(card: AlsaCard, controlName: Option<string>) returns (r: Option<MixerControl>)
    ensures r == SelectMixer(card, controlName)
  {
    r := None;
    if card.Unavailable? {
      return;
    }
    var controls := card.controls;
    if controlName.None? {
      var names := ControlNames(controls);
      var i := 0;
      while i < |names|
        invariant 0 <= i <= |names|
        invariant r.None?
        invariant FirstPlaybackControl(controls, names) == FirstPlaybackControl(controls, names[i..])
      {
        assert names[i..][1..] == names[i + 1..];
        var mixer := OpenControl(controls, names[i]);
        if mixer.Some? && HasPlaybackVolume(mixer.value) {
          r := mixer;
          break;
        }
        i := i + 1;
      }
    } else {
      r := OpenControl(controls, controlName.value);
      if r.Some? && !HasPlaybackVolume(r.value) {
        r := None;
      }
    }
  }

  /** The search keeps the FIRST qualifying name: if name `i` opens a playback-volume
      control and no name before it does, that control is the result. */
  lemma {:induction false} FirstPlaybackControlIsFirst(controls: seq<MixerControl>, names: seq<string>, i: nat)
    requires i < |names| && OpensWithPlaybackVolume(controls, names[i])
    requires forall j :: 0 <= j < i ==> !OpensWithPlaybackVolume(controls, names[j])
    ensures FirstPlaybackControl(controls, names) == OpenControl(controls, names[i])
  {
    if i > 0 {
      FirstPlaybackControlIsFirst(controls, names[1..], i - 1);
    }
  }

  /** Opening a control's own name yields that control when no earlier control shares it. */
  lemma {:induction false} OpenControlOwnName(controls: seq<MixerControl>, i: nat)
    requires i < |controls|
    requires forall j :: 0 <= j < i ==> controls[j].name != controls[i].name
    ensures OpenControl(controls, controls[i].name) == Some(controls[i])
  {
    if i > 0 {
      OpenControlOwnName(controls[1..], i - 1);
    }
  }

  /** On a card whose control names are distinct, the automatic search returns the first
      control, in enumeration order, that supports playback volume. */
  lemma DistinctNamesFirstControl(controls: seq<MixerControl>, i: nat)
    requires forall j, k :: 0 <= j < k < |controls| ==> controls[j].name != controls[k].name
    requires i < |controls| && HasPlaybackVolume(controls[i])
    requires forall j :: 0 <= j < i ==> !HasPlaybackVolume(controls[j])
    ensures SelectMixer(Card(controls), None) == Some(controls[i])
  {
    var names := ControlNames(controls);
    forall j | 0 <= j <= i ensures OpenControl(controls, names[j]) == Some(controls[j]) {
      OpenControlOwnName(controls, j);
    }
    FirstPlaybackControlIsFirst(controls, names, i);
  }

  /** Controls sharing a name: every listed name opens the FIRST control so named, so a
      later same-named control is never examined. Here "PCM" index 0 has no playback
      volume and "PCM" index 1 has, and nothing is selected. */
  lemma SharedNameShadowsLaterControl()
    ensures
      var a := MixerControl("PCM", [], ["Playback Switch"], 40, false);
      var b := MixerControl("PCM", ["Playback Volume"], [], 80, false);
      SelectMixer(Card([a, b]), None) == None
  {
  }

  /** A named control is used or rejected on its own merits: no other control is
      tried, however many others support playback volume. */
  lemma NamedControlNoFallback(controls: seq<MixerControl>, name: string)
    ensures SelectMixer(Card(controls), Some(name)).Some? <==>
      OpenControl(controls, name).Some? && HasPlaybackVolume(OpenControl(controls, name).value)
    ensures SelectMixer(Card(controls), Some(name)).Some? ==>
      SelectMixer(Card(controls), Some(name)) == OpenControl(controls, name)
  {
  }

  /** Three enumerated controls of which only the third advertises "Playback Volume":
      that third control is selected. */
  lemma ThirdOfThreeSelected()
    ensures
      var a := MixerControl("Capture", ["Capture Volume"], [], 50, false);
      var b := MixerControl("Mic", [], ["Capture Switch"], 0, false);
      var c := MixerControl("PCM", ["Playback Volume"], [], 80, false);
      SelectMixer(Card([a, b, c]), None) == Some(c)
  {
    var a := MixerControl("Capture", ["Capture Volume"], [], 50, false);
    var b := MixerControl("Mic", [], ["Capture Switch"], 0, false);
    var c := MixerControl("PCM", ["Playback Volume"], [], 80, false);
    assert !HasPlaybackVolume(a) by { assert "Capture Volume" !in PlaybackVolumeCaps; }
    assert HasPlaybackVolume(c) by { assert "Playback Volume" in PlaybackVolumeCaps; }
    DistinctNamesFirstControl([a, b, c], 2);
  }
}
