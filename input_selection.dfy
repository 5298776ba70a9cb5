/** Choosing the USB HID input device the daemon listens to (`get_usb_hid_input`). */
module InputSelection {
  import opened Wrappers
  import opened Ecodes
  import opened Probes

  /** An opened input device node: its path, name, bus type and capability map
      (event type to the codes it reports). */
  datatype InputDevice = InputDevice(
    path: string,
    name: string,
    bustype: int,
    capabilities: map<int, seq<int>>)

  /** What opening a device node yields: the device, or one of the two errors the
      selector swallows (`FileNotFoundError`, `PermissionError`). */
  datatype NodeStatus = Readable(device: InputDevice) | NotFound | PermissionDenied

  /** The device nodes present when the selector runs; a path with no entry is not found. */
  function OpenDevice(nodes: map<string, NodeStatus>, path: string): (r: NodeStatus)
    ensures path !in nodes ==> r == NotFound
  {
    if path in nodes then nodes[path] else NotFound
  }

  /** Opening every listed node in order, as the list comprehension does: the first
      node that fails aborts the whole enumeration. */
  function OpenAll(nodes: map<string, NodeStatus>, paths: seq<string>): (r: Option<seq<InputDevice>>)
    ensures r.Some? <==> forall p :: p in paths ==> OpenDevice(nodes, p).Readable?
    ensures r.Some? ==> |r.value| == |paths|
    ensures r.Some? ==> forall i :: 0 <= i < |paths| ==> r.value[i] == OpenDevice(nodes, paths[i]).device
  {
    if paths == [] then Some([])
    else
      var first := OpenDevice(nodes, paths[0]);
      var rest := OpenAll(nodes, paths[1..]);
      if first.Readable? && rest.Some? then Some([first.device] + rest.value) else None
  }

  /** A device qualifies in the automatic search iff it is on the USB bus and reports
      the volume-up key. */
  predicate IsUsbVolumeDevice(d: InputDevice) {
    d.bustype == BUS_USB && SupportsVolumeControl(d.capabilities)
  }

  /** The qualifying devices, in enumeration order. */
  function UsbVolumeDevices(devices: seq<InputDevice>): (r: seq<InputDevice>)
    ensures forall d :: d in r <==> d in devices && IsUsbVolumeDevice(d)
    ensures r == [] <==> forall d :: d in devices ==> !IsUsbVolumeDevice(d)
  {
    if devices == [] then []
    else if IsUsbVolumeDevice(devices[0]) then [devices[0]] + UsbVolumeDevices(devices[1..])
    else UsbVolumeDevices(devices[1..])
  }

  /** What `get_usb_hid_input` returns. With a path given: the device at that path,
      whether or not it supports volume control. With no path: the first qualifying
      device among the listed nodes. A missing or forbidden node yields `None`. */
  function GetUsbHidInput(nodes: map<string, NodeStatus>, listed: seq<string>, path: Option<string>)
    : (r: Option<InputDevice>)
    ensures path.None? && r.Some? ==> IsUsbVolumeDevice(r.value)
    ensures path.Some? ==> r == (if OpenDevice(nodes, path.value).Readable?
                                 then Some(OpenDevice(nodes, path.value).device) else None)
  {
    match path
    case Some(p) =>
      var status := OpenDevice(nodes, p);
      if status.Readable? then Some(status.device) else None
    case None =>
      var devices := OpenAll(nodes, listed);
      if devices.None? then None
      else
        var hid := UsbVolumeDevices(devices.value);
        if |hid| > 0 then Some(hid[0]) else None
  }

  /** The head of the filtered list is the first qualifying device. */
  lemma {:induction false} UsbVolumeDevicesHead(devices: seq<InputDevice>, i: nat)
    requires i < |devices| && IsUsbVolumeDevice(devices[i])
    requires forall j :: 0 <= j < i ==> !IsUsbVolumeDevice(devices[j])
    ensures |UsbVolumeDevices(devices)| > 0 && UsbVolumeDevices(devices)[0] == devices[i]
  {
    if i > 0 {
      UsbVolumeDevicesHead(devices[1..], i - 1);
    }
  }

  /** Automatic search: when every listed node opens, and the node at position `i` is
      the first to hold a qualifying device, that device is returned; when none
      qualifies, nothing is. */
  lemma AutomaticSearchFindsFirst(nodes: map<string, NodeStatus>, listed: seq<string>, i: nat)
    requires forall p :: p in listed ==> OpenDevice(nodes, p).Readable?
    requires i < |listed| && IsUsbVolumeDevice(OpenDevice(nodes, listed[i]).device)
    requires forall j :: 0 <= j < i ==> !IsUsbVolumeDevice(OpenDevice(nodes, listed[j]).device)
    ensures GetUsbHidInput(nodes, listed, None) == Some(OpenDevice(nodes, listed[i]).device)
  {
    var devices := OpenAll(nodes, listed).value;
    UsbVolumeDevicesHead(devices, i);
  }

  lemma AutomaticSearchNoMatch(nodes: map<string, NodeStatus>, listed: seq<string>)
    requires forall p :: p in listed ==> OpenDevice(nodes, p).Readable?
    requires forall p :: p in listed ==> !IsUsbVolumeDevice(OpenDevice(nodes, p).device)
    ensures GetUsbHidInput(nodes, listed, None) == None
  {
  }

  /** A missing or forbidden node anywhere in the listing makes the automatic search
      come back empty, to be retried later. */
  lemma AutomaticSearchOpenFailure(nodes: map<string, NodeStatus>, listed: seq<string>, i: nat)
    requires i < |listed| && !OpenDevice(nodes, listed[i]).Readable?
    ensures GetUsbHidInput(nodes, listed, None) == None
  {
  }

  /** An explicitly given path is used even when the device fails the volume probe. */
  lemma ExplicitPathSkipsProbe(nodes: map<string, NodeStatus>, listed: seq<string>, path: string)
    requires OpenDevice(nodes, path).Readable?
    requires !SupportsVolumeControl(OpenDevice(nodes, path).device.capabilities)
    ensures GetUsbHidInput(nodes, listed, Some(path)) == Some(OpenDevice(nodes, path).device)
  {
  }

  /** Three listed devices of which only the second is on USB and reports the
      volume-up key: that second device is returned. */
  lemma SecondOfThreeSelected()
    ensures
      var kbd := InputDevice("/dev/input/event0", "keyboard", 17, map[EV_KEY := [30, 31]]);
      var remote := InputDevice("/dev/input/event1", "remote", BUS_USB, map[EV_KEY := [KEY_VOLUMEUP, KEY_VOLUMEDOWN]]);
      var mouse := InputDevice("/dev/input/event2", "mouse", BUS_USB, map[2 := [0, 1]]);
      var nodes := map["/dev/input/event0" := Readable(kbd), "/dev/input/event1" := Readable(remote),
                       "/dev/input/event2" := Readable(mouse)];
      GetUsbHidInput(nodes, ["/dev/input/event0", "/dev/input/event1", "/dev/input/event2"], None)
        == Some(remote)
  {
    var kbd := InputDevice("/dev/input/event0", "keyboard", 17, map[EV_KEY := [30, 31]]);
    var remote := InputDevice("/dev/input/event1", "remote", BUS_USB, map[EV_KEY := [KEY_VOLUMEUP, KEY_VOLUMEDOWN]]);
    var mouse := InputDevice("/dev/input/event2", "mouse", BUS_USB, map[2 := [0, 1]]);
    var nodes := map["/dev/input/event0" := Readable(kbd), "/dev/input/event1" := Readable(remote),
                     "/dev/input/event2" := Readable(mouse)];
    var listed := ["/dev/input/event0", "/dev/input/event1", "/dev/input/event2"];
    assert IsUsbVolumeDevice(remote);
    AutomaticSearchFindsFirst(nodes, listed, 1);
  }
}
