/**
 * Camera discovery (backend/app/services/camera_detector.py): the `v4l2-ctl --list-devices`
 * parser, the `--list-formats-ext` resolution list, the Raspberry Pi camera probe and the
 * camera test. Every subprocess is a call of the `Runner` passed in.
 */
module CameraDetector {
  import opened Wrappers
  import opened Strings
  import opened Sorting
  import opened Commands

  /** One entry of the detected-camera list; `kind` is the dict's "type". */
  datatype Camera = Camera(name: string, device: string, kind: string, formats: seq<string>)

  /** Driver names of the Raspberry Pi's own media devices, which are not cameras. */
  const INTERNAL_DEVICES: seq<string> := ["pispbe", "rp1-cfe", "rpi-hevc", "bcm2835", "unicam"]
  const UNKNOWN_USB_CAMERA := "Unknown USB Camera"
  const PI_CAMERA_NAME := "Raspberry Pi Camera"
  const DEFAULT_FORMATS: seq<string> := ["1920x1080", "1280x720", "640x480"]
  const PI_FORMATS: seq<string> := ["1920x1080", "1640x1232", "1280x720", "640x480"]
  /** The Pi camera tools, newest first. */
  const PI_COMMANDS: seq<string> := ["rpicam-hello", "libcamera-hello"]
  const SIZE_PREFIX := "Size: Discrete "

  function CapabilitiesCommand(device: string): seq<string> { ["v4l2-ctl", "-d", device, "--all"] }
  function FormatsCommand(device: string): seq<string> { ["v4l2-ctl", "-d", device, "--list-formats-ext"] }

  // ================================================================ --list-devices parser

  /** A non-empty line that is not indented names a camera. */
  predicate IsNameLine(line: string) {
    line != "" && !StartsWith(line, "\t") && !StartsWith(line, " ")
  }

  /** The camera name a name line gives: stripped, then without its trailing colons. */
  function CameraName(line: string): (name: string)
    ensures name == [] || name[|name| - 1] != ':'
  {
    RStripChar(Strip(line), ':')
  }

  /** An indented line whose stripped text starts with /dev/video lists a device node. */
  predicate IsDeviceLine(line: string) {
    !IsNameLine(line) && StartsWith(Strip(line), "/dev/video")
  }

  /** The name mentions one of the Pi's internal devices, ignoring case. */
  predicate IsInternal(name: string) {
    exists k :: 0 <= k < |INTERNAL_DEVICES| && Contains(Lower(name), INTERNAL_DEVICES[k])
  }

  /**
   * `current_camera` after reading `lines`: the name of the last name line, or "" when
   * there was none (the empty name and `None` are both falsy and are treated alike).
   */
  function CurrentName(lines: seq<string>): string {
    if lines == [] then ""
    else if IsNameLine(lines[|lines| - 1]) then CameraName(lines[|lines| - 1])
    else CurrentName(lines[..|lines| - 1])
  }

  /** The cameras one line contributes, under the current name. */
  function DeviceEntry(line: string, current: string, run: Runner): (r: seq<Camera>)
    ensures |r| <= 1
    ensures |r| == 1 <==>
              && IsDeviceLine(line)
              && !(current != "" && IsInternal(current))
              && Contains(Lower(run(CapabilitiesCommand(Strip(line))).stdout), "video capture")
    ensures |r| == 1 ==>
              && r[0].device == Strip(line) && r[0].kind == "usb"
              && r[0].name == (if current == "" then UNKNOWN_USB_CAMERA else current)
              && r[0].formats == CameraFormats(run(FormatsCommand(Strip(line))))
  {
    if IsNameLine(line) || !StartsWith(Strip(line), "/dev/video") then []
    else if current != "" && IsInternal(current) then []
    else
      var device := Strip(line);
      if Contains(Lower(run(CapabilitiesCommand(device)).stdout), "video capture") then
        [Camera(if current == "" then UNKNOWN_USB_CAMERA else current, device, "usb",
                CameraFormats(run(FormatsCommand(device))))]
      else []
  }

  /** The cameras the device listing `lines` describes, in line order. */
  function UsbCameras(lines: seq<string>, run: Runner): (cams: seq<Camera>)
    ensures |cams| <= |lines|
  {
    if lines == [] then []
    else
      var init := lines[..|lines| - 1];
      UsbCameras(init, run) + DeviceEntry(lines[|lines| - 1], CurrentName(init), run)
  }

  /** A detected USB camera is a capture device node, never under an internal device's name. */
  predicate IsUsbCapture(c: Camera, run: Runner) {
    && c.kind == "usb" && StartsWith(c.device, "/dev/video")
    && c.name != "" && (c.name == UNKNOWN_USB_CAMERA || !IsInternal(c.name))
    && Contains(Lower(run(CapabilitiesCommand(c.device)).stdout), "video capture")
    && c.formats == CameraFormats(run(FormatsCommand(c.device)))
  }

  lemma {:induction false} UsbCamerasAreCaptures(lines: seq<string>, run: Runner)
    ensures forall c :: c in UsbCameras(lines, run) ==> IsUsbCapture(c, run)
    decreases |lines|
  {
    if lines != [] {
      var init := lines[..|lines| - 1];
      UsbCamerasAreCaptures(init, run);
      var entry := DeviceEntry(lines[|lines| - 1], CurrentName(init), run);
      assert forall c :: c in entry ==> IsUsbCapture(c, run);
      assert forall c :: c in UsbCameras(init, run) + entry ==> c in UsbCameras(init, run) || c in entry;
    }
  }

  /** Reading one more line: the current name and the cameras it adds. */
  lemma UsbCamerasStep(lines: seq<string>, i: nat, run: Runner)
    requires i < |lines|
    ensures CurrentName(lines[..i + 1])
            == if IsNameLine(lines[i]) then CameraName(lines[i]) else CurrentName(lines[..i])
    ensures UsbCameras(lines[..i + 1], run)
            == UsbCameras(lines[..i], run) + DeviceEntry(lines[i], CurrentName(lines[..i]), run)
  {
    assert lines[..i + 1][..i] == lines[..i];
  }

  /** A device line under an internal Pi device's name adds no camera. */
  lemma InternalDevicesSkipped(lines: seq<string>, run: Runner, i: nat)
    requires i < |lines| && IsDeviceLine(lines[i])
    requires CurrentName(lines[..i]) != "" && IsInternal(CurrentName(lines[..i]))
    ensures UsbCameras(lines[..i + 1], run) == UsbCameras(lines[..i], run)
  {
    assert lines[..i + 1][..i] == lines[..i];
  }

  /** The listing is read line by line: the cameras of a concatenation are those of its parts. */
  lemma {:induction false} UsbCamerasAppend(a: seq<string>, b: seq<string>, run: Runner)
    requires forall k :: 0 <= k < |b| ==> !IsNameLine(b[k])
    ensures CurrentName(a + b) == CurrentName(a)
    ensures UsbCameras(a + b, run) == UsbCameras(a, run) + UsbCamerasUnder(b, CurrentName(a), run)
    decreases |b|
  {
    CurrentNameAppend(a, b);
    if b == [] {
      assert a + b == a;
    } else {
      var b', x := b[..|b| - 1], b[|b| - 1];
      assert a + b == (a + b') + [x];
      CurrentNameAppend(a, b');
      UsbCamerasAppend(a, b', run);
      UsbCamerasSnoc(a + b', x, run);
      var n, e := CurrentName(a), DeviceEntry(x, CurrentName(a), run);
      assert UsbCamerasUnder(b, n, run) == UsbCamerasUnder(b', n, run) + e;
      ConcatAssoc(UsbCameras(a, run), UsbCamerasUnder(b', n, run), e);
    }
  }

  lemma ConcatAssoc<T>(u: seq<T>, w: seq<T>, e: seq<T>)
    ensures u + w + e == u + (w + e)
  {
  }

  /** One more line adds its entry under the name in force before it. */
  lemma UsbCamerasSnoc(lines: seq<string>, x: string, run: Runner)
    ensures UsbCameras(lines + [x], run) == UsbCameras(lines, run) + DeviceEntry(x, CurrentName(lines), run)
  {
    assert (lines + [x])[..|lines|] == lines;
  }

  /** Lines without a name line keep the current name. */
  lemma {:induction false} CurrentNameAppend(a: seq<string>, b: seq<string>)
    requires forall k :: 0 <= k < |b| ==> !IsNameLine(b[k])
    ensures CurrentName(a + b) == CurrentName(a)
    decreases |b|
  {
    if b == [] {
      assert a + b == a;
    } else {
      var b' := b[..|b| - 1];
      assert (a + b)[..|a + b| - 1] == a + b';
      CurrentNameAppend(a, b');
    }
  }

  /** The cameras listed by lines read under a fixed current name (no name line among them). */
  function UsbCamerasUnder(lines: seq<string>, current: string, run: Runner): seq<Camera> {
    if lines == [] then []
    else UsbCamerasUnder(lines[..|lines| - 1], current, run) + DeviceEntry(lines[|lines| - 1], current, run)
  }

  /** What `detect_usb_cameras` returns for the commands' results. */
  function DetectedUsbCameras(run: Runner): seq<Camera> {
    if run(["which", "v4l2-ctl"]).returncode != 0 then []
    else
      var listing := run(["v4l2-ctl", "--list-devices"]);
      if listing.returncode != 0 then [] else UsbCameras(Split(listing.stdout, '\n'), run)
  }

  method DetectUsbCameras(run: Runner) returns (cameras: seq<Camera>)
    ensures cameras == DetectedUsbCameras(run)
  {
    cameras := [];
    var which := run(["which", "v4l2-ctl"]);
    if which.returncode != 0 {
      return;
    }
    var result := run(["v4l2-ctl", "--list-devices"]);
    if result.returncode != 0 {
      return;
    }
    var lines := Split(result.stdout, '\n');
    var current := "";
    var i := 0;
    while i < |lines|
      invariant 0 <= i <= |lines|
      invariant current == CurrentName(lines[..i])
      invariant cameras == UsbCameras(lines[..i], run)
    {
      UsbCamerasStep(lines, i, run);
      var line := lines[i];
      if IsNameLine(line) {
        current := CameraName(line);
      } else {
        var found := ProbeDeviceLine(line, current, run);
        cameras := cameras + found;
      }
      i := i + 1;
    }
    assert lines[..i] == lines;
  }

  /** The device-line branch of the listing loop. */
  method ProbeDeviceLine(line: string, current: string, run: Runner) returns (found: seq<Camera>)
    requires !IsNameLine(line)
    ensures found == DeviceEntry(line, current, run)
  {
    found := [];
    if StartsWith(Strip(line), "/dev/video") {
      var device := Strip(line);
      if !(current != "" && IsInternal(current)) {
        var caps := run(CapabilitiesCommand(device)).stdout;
        if Contains(Lower(caps), "video capture") {
          var formats := GetCameraFormats(device, run);
          found := [Camera(if current == "" then UNKNOWN_USB_CAMERA else current, device, "usb", formats)];
        }
      }
    }
  }

  // ================================================================ --list-formats-ext parser

  /** The match of `Size: Discrete (\d+)x(\d+)` starting at position `i`, as (width, height) text. */
  function SizeAt(line: string, i: nat): (r: Option<(string, string)>)
    ensures r.Some? ==> IsDigits(r.value.0) && IsDigits(r.value.1)
  {
    if !OccursAt(line, SIZE_PREFIX, i) then None
    else
      var j := i + |SIZE_PREFIX|;
      var e1 := RunEnd(line, j, IsDigit);
      if e1 == j || e1 == |line| || line[e1] != 'x' then None
      else
        var e2 := RunEnd(line, e1 + 1, IsDigit);
        if e2 == e1 + 1 then None else Some((line[j..e1], line[e1 + 1..e2]))
  }

  /** `re.search` for the size pattern: the leftmost position at or after `from` where it matches. */
  function FindSize(line: string, from: nat): (r: Option<nat>)
    requires from <= |line|
    ensures r.Some? ==> from <= r.value <= |line| && SizeAt(line, r.value).Some?
    ensures forall k: nat :: from <= k <= |line| && (r.None? || k < r.value) ==> SizeAt(line, k).None?
    decreases |line| - from
  {
    if SizeAt(line, from).Some? then Some(from)
    else if from == |line| then None
    else FindSize(line, from + 1)
  }

  /** The "WxH" text a line contributes, if the size pattern occurs in it. */
  function SizeOfLine(line: string): (r: Option<string>)
    ensures r.Some? ==> exists w, h :: IsDigits(w) && IsDigits(h) && r.value == w + "x" + h
  {
    match FindSize(line, 0)
    case None => None
    case Some(i) =>
      var m := SizeAt(line, i).value;
      Some(m.0 + "x" + m.1)
  }

  /** The sizes of all lines in order, duplicates included (the `formats` list before the set). */
  function ParsedSizes(lines: seq<string>): (r: seq<string>)
    ensures |r| <= |lines|
  {
    if lines == [] then []
    else
      var init := ParsedSizes(lines[..|lines| - 1]);
      match SizeOfLine(lines[|lines| - 1])
      case None => init
      case Some(f) => init + [f]
  }

  /** The sort key: `int(x.split("x")[0])`, and 0 for text that has no integer there. */
  function Width(format: string): real {
    match ParseInt(Split(format, 'x')[0])
    case Some(v) => v as real
    case None => 0.0
  }

  /** The first `x` of a size text is the one after the width digits. */
  lemma FirstXOfSize(w: string, h: string)
    requires IsDigits(w)
    ensures IndexOfChar(w + "x" + h, 'x') == Some(|w|)
  {
    var s := w + "x" + h;
    assert s[|w|] == 'x';
    assert forall j :: 0 <= j < |w| ==> s[j] == w[j];
    var k := IndexOfChar(s, 'x').value;
    assert forall j :: 0 <= j < k ==> s[..k][j] == s[j];
  }

  /** The key of a parsed size is the number its width digits denote. */
  lemma WidthOfSize(w: string, h: string)
    requires IsDigits(w) && IsDigits(h)
    ensures Width(w + "x" + h) == DigitsValue(w) as real
  {
    var s := w + "x" + h;
    FirstXOfSize(w, h);
    SplitFirst(s, 'x', |w|);
    assert s[..|w|] == w;
    ParseIntOfDigits(w);
  }

  /**
   * What `_get_camera_formats` returns for the `--list-formats-ext` result: each parsed size
   * once, widest first, or the three common sizes when nothing was parsed.
   */
  function CameraFormats(result: CmdResult): (r: seq<string>)
    ensures r != []
    ensures NoDup(r)
    ensures SortedDesc(r, Width) || r == DEFAULT_FORMATS
    ensures var parsed := if result.returncode == 0 then ParsedSizes(Split(result.stdout, '\n')) else [];
            if parsed == [] then r == DEFAULT_FORMATS
            else SortedDesc(r, Width) && forall f :: f in r <==> f in parsed
  {
    var parsed := if result.returncode == 0 then ParsedSizes(Split(result.stdout, '\n')) else [];
    var unique := Dedup(parsed);
    var sorted := SortDesc(unique, Width);
    PermutationKeepsNoDup(unique, sorted);
    assert forall f :: f in sorted <==> f in multiset(unique);
    if sorted == [] then DEFAULT_FORMATS
    else sorted
  }

  method GetCameraFormats(device: string, run: Runner) returns (formats: seq<string>)
    ensures formats == CameraFormats(run(FormatsCommand(device)))
  {
    var result := run(FormatsCommand(device));
    formats := [];
    if result.returncode == 0 {
      var lines := Split(result.stdout, '\n');
      var i := 0;
      while i < |lines|
        invariant 0 <= i <= |lines|
        invariant formats == ParsedSizes(lines[..i])
      {
        assert lines[..i + 1][..i] == lines[..i];
        match SizeOfLine(lines[i]) {
          case Some(f) => formats := formats + [f];
          case None =>
        }
        i := i + 1;
      }
      assert lines[..i] == lines;
      formats := SortDesc(Dedup(formats), Width);
    }
    if formats == [] {
      formats := DEFAULT_FORMATS;
    }
  }

  // ================================================================ Pi camera

  /** The first command of `cmds` that `which` finds. */
  function FirstAvailable(cmds: seq<string>, run: Runner): (r: Option<nat>)
    ensures r.Some? ==> r.value < |cmds| && run(["which", cmds[r.value]]).returncode == 0
    ensures forall k :: 0 <= k < |cmds| && (r.None? || k < r.value) ==> run(["which", cmds[k]]).returncode != 0
  {
    if cmds == [] then None
    else if run(["which", cmds[0]]).returncode == 0 then Some(0)
    else match FirstAvailable(cmds[1..], run)
      case None => None
      case Some(k) => Some(k + 1)
  }

  /** `rpicam-hello` wins whenever it is installed. */
  lemma RpicamPreferred(run: Runner)
    requires run(["which", "rpicam-hello"]).returncode == 0
    ensures FirstAvailable(PI_COMMANDS, run) == Some(0) && PI_COMMANDS[0] == "rpicam-hello"
  {
  }

  /** The loop over the Pi camera tools, stopping at the first one installed. */
  method FindCameraCommand(run: Runner) returns (cmd: Option<string>)
    ensures cmd == match FirstAvailable(PI_COMMANDS, run) case None => None case Some(k) => Some(PI_COMMANDS[k])
  {
    cmd := None;
    var i := 0;
    while i < |PI_COMMANDS|
      invariant 0 <= i <= |PI_COMMANDS|
      invariant forall k :: 0 <= k < i ==> run(["which", PI_COMMANDS[k]]).returncode != 0
    {
      if run(["which", PI_COMMANDS[i]]).returncode == 0 {
        cmd := Some(PI_COMMANDS[i]);
        return;
      }
      i := i + 1;
    }
  }

  // ---------------------------------------------------------------- the name in the listing

  /** No line break in `s[g..k]`. */
  predicate OneLine(s: string, g: nat, k: nat)
    requires g <= k <= |s|
  {
    forall j :: g <= j < k ==> s[j] != '\n'
  }

  /** `\s*\[` matches at `e`: blanks (line breaks included), then an opening bracket. */
  predicate ClosesAt(s: string, e: nat)
    requires e <= |s|
  {
    var t := RunEnd(s, e, IsSpace);
    t < |s| && s[t] == '['
  }

  /**
   * The lazy group `(.+?)` started at `g` and grown to `e`: the shortest group within the
   * line after which `\s*\[` matches.
   */
  function LazyGroupEnd(s: string, g: nat, e: nat): (r: Option<nat>)
    requires g < e <= |s| && OneLine(s, g, e - 1)
    ensures r.Some? ==> e <= r.value <= |s| && OneLine(s, g, r.value) && ClosesAt(s, r.value)
    ensures forall k :: e <= k <= |s| && (r.None? || k < r.value) && OneLine(s, g, k) ==> !ClosesAt(s, k)
    decreases |s| - e
  {
    if s[e - 1] == '\n' then None
    else if ClosesAt(s, e) then Some(e)
    else if e == |s| then None
    else LazyGroupEnd(s, g, e + 1)
  }

  /**
   * Where the group starts and ends: the greedy `\s*` before it first takes every blank up to
   * `g`, then gives them back one by one, down to `c`, until the group can close.
   */
  function CaptureFrom(s: string, c: nat, g: nat): (r: Option<(nat, nat)>)
    requires c <= g <= |s|
    ensures r.Some? ==> c <= r.value.0 <= g && r.value.0 < |s| && GroupAt(s, r.value.0) == Some(r.value.1)
    ensures forall h :: c <= h <= g && (r.None? || r.value.0 < h) && h < |s| ==> GroupAt(s, h).None?
    decreases g
  {
    if g < |s| && GroupAt(s, g).Some? then Some((g, GroupAt(s, g).value))
    else if g == c then None
    else CaptureFrom(s, c, g - 1)
  }

  /** The end of the group when it starts at `g`. */
  function GroupAt(s: string, g: nat): Option<nat>
    requires g < |s|
  {
    LazyGroupEnd(s, g, g + 1)
  }

  /**
   * The name `\d+\s*:\s*(.+?)\s*\[` captures when its match starts at `i`. The digits and the
   * blanks before the colon never give anything back: a digit is neither a blank nor a colon.
   */
  function PiNameAt(s: string, i: nat): (r: Option<string>)
    ensures r.Some? ==> r.value != [] && forall k :: 0 <= k < |r.value| ==> r.value[k] != '\n'
  {
    if i >= |s| || !IsDigit(s[i]) then None
    else
      var p := RunEnd(s, RunEnd(s, i, IsDigit), IsSpace);
      if p == |s| || s[p] != ':' then None
      else match CaptureFrom(s, p + 1, RunEnd(s, p + 1, IsSpace))
        case None => None
        case Some((g, e)) => Some(s[g..e])
  }

  /** The leftmost position at or after `from` where the name pattern matches. */
  function FindPiName(s: string, from: nat): (r: Option<nat>)
    requires from <= |s|
    ensures r.Some? ==> from <= r.value < |s| && PiNameAt(s, r.value).Some?
    ensures forall k: nat :: from <= k <= |s| && (r.None? || k < r.value) ==> PiNameAt(s, k).None?
    decreases |s| - from
  {
    if PiNameAt(s, from).Some? then Some(from)
    else if from == |s| then None
    else FindPiName(s, from + 1)
  }

  /** The camera name of a listing: the leftmost capture, or the generic name when there is none. */
  function PiCameraName(listing: string): (name: string)
    ensures FindPiName(listing, 0).None? ==> name == PI_CAMERA_NAME
    ensures FindPiName(listing, 0).Some? ==> Some(name) == PiNameAt(listing, FindPiName(listing, 0).value)
  {
    match FindPiName(listing, 0)
    case Some(i) => PiNameAt(listing, i).value
    case None => PI_CAMERA_NAME
  }

  /** A name without blanks or brackets grows one character at a time until the " [" after it. */
  lemma {:induction false} LazyOverName(s: string, g: nat, e: nat, end: nat)
    requires g < e <= end && end + 1 < |s| && OneLine(s, g, e - 1)
    requires forall k :: g <= k < end ==> !IsSpace(s[k]) && s[k] != '['
    requires IsSpace(s[end]) && s[end] != '\n' && s[end + 1] == '['
    ensures LazyGroupEnd(s, g, e) == Some(end)
    decreases end - e
  {
    assert s[e - 1] != '\n' by { assert !IsSpace(s[e - 1]); }
    if e < end {
      assert RunEnd(s, e, IsSpace) == e;
      LazyOverName(s, g, e + 1, end);
    } else {
      assert RunEnd(s, end + 1, IsSpace) == end + 1;
      assert RunEnd(s, end, IsSpace) == end + 1;
    }
  }

  /** A text laid out as `N : name [` from its start captures `name` there. */
  lemma PiNameAtLayout(s: string, a: nat, m: nat)
    requires 0 < a && 0 < m && a + m + 4 < |s|
    requires forall k :: 0 <= k < a ==> IsDigit(s[k])
    requires s[a] == ' ' && s[a + 1] == ':' && s[a + 2] == ' '
    requires forall k :: a + 3 <= k < a + 3 + m ==> !IsSpace(s[k]) && s[k] != '['
    requires s[a + 3 + m] == ' ' && s[a + 4 + m] == '['
    ensures PiNameAt(s, 0) == Some(s[a + 3..a + 3 + m])
  {
    assert RunEnd(s, 0, IsDigit) == a by { RunEndAt(s, 0, a, IsDigit); }
    assert RunEnd(s, a, IsSpace) == a + 1 by { RunEndAt(s, a, a + 1, IsSpace); }
    assert RunEnd(s, a + 2, IsSpace) == a + 3 by { RunEndAt(s, a + 2, a + 3, IsSpace); }
    LazyOverName(s, a + 3, a + 4, a + 3 + m);
    assert CaptureFrom(s, a + 2, a + 3) == Some((a + 3, a + 3 + m));
  }

  /** A run that holds up to `j` and stops there ends at `j`. */
  lemma {:induction false} RunEndAt(s: string, from: nat, j: nat, p: char -> bool)
    requires from <= j < |s| && !p(s[j])
    requires forall k :: from <= k < j ==> p(s[k])
    ensures RunEnd(s, from, p) == j
    decreases j - from
  {
    if from < j {
      RunEndAt(s, from + 1, j, p);
    }
  }

  /** A listing line `N : name [...]` names the camera `name`. */
  lemma PiNameOfListingLine(n: string, name: string, rest: string)
    requires IsDigits(n) && name != []
    requires forall k :: 0 <= k < |name| ==> !IsSpace(name[k]) && name[k] != '['
    ensures PiCameraName(n + " : " + name + " [" + rest) == name
  {
    var s := n + " : " + name + " [" + rest;
    ListingLineLayout(n, name, rest);
    PiNameAtLayout(s, |n|, |name|);
    PiCameraNameAtStart(s);
  }

  /** A match at the very start is the leftmost one. */
  lemma PiCameraNameAtStart(s: string)
    requires PiNameAt(s, 0).Some?
    ensures PiCameraName(s) == PiNameAt(s, 0).value
  {
    assert FindPiName(s, 0) == Some(0);
  }

  /** Where the pieces of `N : name [...]` sit. */
  lemma ListingLineLayout(n: string, name: string, rest: string)
    requires IsDigits(n) && name != []
    requires forall k :: 0 <= k < |name| ==> !IsSpace(name[k]) && name[k] != '['
    ensures var s := n + " : " + name + " [" + rest; var a, m := |n|, |name|;
      && 0 < a && a + m + 4 < |s|
      && (forall k :: 0 <= k < a ==> IsDigit(s[k]))
      && s[a] == ' ' && s[a + 1] == ':' && s[a + 2] == ' '
      && (forall k :: a + 3 <= k < a + 3 + m ==> !IsSpace(s[k]) && s[k] != '[')
      && s[a + 3 + m] == ' ' && s[a + 4 + m] == '['
      && s[a + 3..a + 3 + m] == name
  {
    var s := n + " : " + name + " [" + rest;
    var a := |n|;
    assert forall k :: 0 <= k < a ==> s[k] == n[k];
    assert forall k :: a + 3 <= k < a + 3 + |name| ==> s[k] == name[k - a - 3];
  }

  /** What `detect_pi_camera` finds: a camera only when a tool is installed and lists one. */
  function PiCameraOf(run: Runner): (camera: Option<Camera>)
    ensures camera.Some? ==>
              && FirstAvailable(PI_COMMANDS, run).Some?
              && var cmd := PI_COMMANDS[FirstAvailable(PI_COMMANDS, run).value];
                 var listing := run([cmd, "--list-cameras"]);
                 && listing.returncode == 0 && Contains(listing.stdout, "Available cameras")
                 && camera.value == Camera(PiCameraName(listing.stdout), cmd, "picamera", PI_FORMATS)
    ensures camera.None? ==>
              || FirstAvailable(PI_COMMANDS, run).None?
              || var listing := run([PI_COMMANDS[FirstAvailable(PI_COMMANDS, run).value], "--list-cameras"]);
                 listing.returncode != 0 || !Contains(listing.stdout, "Available cameras")
  {
    match FirstAvailable(PI_COMMANDS, run)
    case None => None
    case Some(k) =>
      var listing := run([PI_COMMANDS[k], "--list-cameras"]);
      if listing.returncode == 0 && Contains(listing.stdout, "Available cameras") then
        Some(Camera(PiCameraName(listing.stdout), PI_COMMANDS[k], "picamera", PI_FORMATS))
      else None
  }

  /** `detect_pi_camera`: the installed tool's listing, named by its first `N : name [` entry. */
  method DetectPiCamera(run: Runner) returns (camera: Option<Camera>)
    ensures camera == PiCameraOf(run)
  {
    var cmd := FindCameraCommand(run);
    if cmd.None? {
      return None;
    }
    var result := run([cmd.value, "--list-cameras"]);
    if result.returncode == 0 && Contains(result.stdout, "Available cameras") {
      var name := PiCameraName(result.stdout);
      camera := Some(Camera(name, cmd.value, "picamera", PI_FORMATS));
    } else {
      camera := None;
    }
  }

  /** `detect_all`: the USB cameras in listing order, then the Pi camera exactly when there is one. */
  method DetectAll(run: Runner) returns (cameras: seq<Camera>)
    ensures |cameras| == |DetectedUsbCameras(run)| || |cameras| == |DetectedUsbCameras(run)| + 1
    ensures cameras[..|DetectedUsbCameras(run)|] == DetectedUsbCameras(run)
    ensures |cameras| == |DetectedUsbCameras(run)| + 1 <==> PiCameraOf(run).Some?
    ensures PiCameraOf(run).Some? ==> cameras[|DetectedUsbCameras(run)|] == PiCameraOf(run).value
    ensures forall k :: |DetectedUsbCameras(run)| <= k < |cameras| ==> cameras[k].kind == "picamera"
  {
    cameras := DetectUsbCameras(run);
    var pi := DetectPiCamera(run);
    if pi.Some? {
      cameras := cameras + [pi.value];
    }
  }

  // ================================================================ camera test

  /** `test_camera`: the outcome of probing a camera of the given type. */
  method TestCamera(device: string, cameraType: string, run: Runner) returns (reply: Reply)
    ensures cameraType != "usb" && cameraType != "picamera" ==> reply == Reply("error", "Unknown camera type")
    ensures cameraType == "usb" ==>
              var r := run(CapabilitiesCommand(device));
              reply == if r.returncode == 0 then Reply("success", "Camera is accessible")
                       else Reply("error", "Camera test failed: " + r.stderr)
    ensures cameraType == "picamera" ==>
              match FirstAvailable(PI_COMMANDS, run)
              case None => reply == Reply("error", "rpicam-hello/libcamera-hello not found")
              case Some(k) =>
                var r := run([PI_COMMANDS[k], "--list-cameras"]);
                reply == if r.returncode == 0 then Reply("success", "Camera is accessible")
                         else Reply("error", "Camera test failed: " + r.stderr)
  {
    var result: CmdResult;
    if cameraType == "usb" {
      result := run(CapabilitiesCommand(device));
    } else if cameraType == "picamera" {
      var cmd := FindCameraCommand(run);
      if cmd.None? {
        return Reply("error", "rpicam-hello/libcamera-hello not found");
      }
      result := run([cmd.value, "--list-cameras"]);
    } else {
      return Reply("error", "Unknown camera type");
    }
    if result.returncode == 0 {
      reply := Reply("success", "Camera is accessible");
    } else {
      reply := Reply("error", "Camera test failed: " + result.stderr);
    }
  }
}
