/**
 * The GStreamer video streamer (backend/app/services/video_streamer.py).
 *
 * The configuration dict is a `StreamConfig` record whose `None` fields are the keys the
 * dict does not have. The pipeline builders are functions from the configuration to the
 * argument vector handed to `Popen`; `VideoStreamer` holds the `running`/`process`/
 * `retry_count` state that `start`, `stop` and one round of `_watchdog` update. How the
 * launched process fared is an input (`LaunchOutcome`); processes, sleeps and the HLS
 * directory on disk are not modelled.
 */
module VideoStreamer {
  import opened Wrappers
  import opened Strings

  datatype CameraType = Usb | PiCamera
  datatype StreamProtocol = Udp | Tcp | Hls

  function CameraTypeValue(t: CameraType): string {
    match t
    case Usb => "usb"
    case PiCamera => "picamera"
  }

  function ProtocolValue(p: StreamProtocol): string {
    match p
    case Udp => "udp"
    case Tcp => "tcp"
    case Hls => "hls"
  }

  /** `CameraType(s)`: `None` where the enum constructor raises `ValueError`. */
  function ParseCameraType(s: string): (r: Option<CameraType>)
    ensures r.Some? ==> CameraTypeValue(r.value) == s
    ensures r.None? ==> forall t: CameraType :: CameraTypeValue(t) != s
  {
    if s == "usb" then Some(Usb) else if s == "picamera" then Some(PiCamera) else None
  }

  /** `StreamProtocol(s)`: `None` where the enum constructor raises `ValueError`. */
  function ParseProtocol(s: string): (r: Option<StreamProtocol>)
    ensures r.Some? ==> ProtocolValue(r.value) == s
    ensures r.None? ==> forall p: StreamProtocol :: ProtocolValue(p) != s
  {
    if s == "udp" then Some(Udp) else if s == "tcp" then Some(Tcp) else if s == "hls" then Some(Hls) else None
  }

  /** The configuration dict; a `None` field is a key the dict does not have. */
  datatype StreamConfig = StreamConfig(
    cameraType: Option<string>, protocol: Option<string>, device: Option<string>,
    resolution: Option<string>, fps: Option<int>, bitrate: Option<int>,
    destination: Option<string>)

  const EmptyConfig := StreamConfig(None, None, None, None, None, None, None)

  const DEFAULT_DESTINATION := "127.0.0.1:5600"
  const DEFAULT_PORT := "5600"
  const DEFAULT_DEVICE := "/dev/video0"
  const DEFAULT_RESOLUTION := "1280x720"
  const DEFAULT_FPS := 30
  const DEFAULT_BITRATE := 2000
  const MAX_RETRIES: nat := 5

  /** `str(settings.hls_dir / "stream.mp4")` for the default `./tmp/hls` directory. */
  const HLS_FILE := "tmp/hls/stream.mp4"

  // ================================================================ configuration values

  /** `_parse_destination()`: the destination (default `127.0.0.1:5600`) split at its first colon. */
  function ParseDestination(destination: Option<string>): (r: (string, string))
    ensures var d := destination.GetOr(DEFAULT_DESTINATION);
            && (':' in d ==> r.0 + ":" + r.1 == d && ':' !in r.0)
            && (':' !in d ==> r == (d, DEFAULT_PORT))
  {
    var d := destination.GetOr(DEFAULT_DESTINATION);
    match IndexOfChar(d, ':')
    case None => (d, DEFAULT_PORT)
    case Some(k) =>
      assert d == d[..k] + [':'] + d[k + 1..];
      (d[..k], d[k + 1..])
  }

  /** Python's `value or default` for a text value. */
  function OrText(v: Option<string>, default: string): string {
    if v.None? || v.value == "" then default else v.value
  }

  /** Python's `value or default` for a number. */
  function OrNumber(v: Option<int>, default: int): int {
    if v.None? || v.value == 0 then default else v.value
  }

  function Resolution(c: StreamConfig): string { OrText(c.resolution, DEFAULT_RESOLUTION) }
  function Fps(c: StreamConfig): int { OrNumber(c.fps, DEFAULT_FPS) }
  function Bitrate(c: StreamConfig): int { OrNumber(c.bitrate, DEFAULT_BITRATE) }

  /** With no usable resolution the pipelines are built for 1280 by 720. */
  lemma DefaultResolution(c: StreamConfig)
    requires c.resolution.None? || c.resolution.value == ""
    ensures SplitPair(Resolution(c), 'x') == Some(("1280", "720"))
  {
    assert "1280" + ['x'] + "720" == DEFAULT_RESOLUTION;
    SplitPairOf("1280", "720", 'x');
  }

  // ================================================================ pipelines

  function Caps(width: string, height: string, fps: int): string {
    "video/x-raw,width=" + width + ",height=" + height + ",framerate=" + IntToString(fps) + "/1"
  }

  const GST_LAUNCH := "gst-launch-1.0"
  const V4L2_SOURCE := "v4l2src"
  const LIBCAMERA_SOURCE := "libcamerasrc"

  /** The protocol-specific tail both GStreamer builders append. */
  function Sink(p: Option<StreamProtocol>, destination: Option<string>): seq<string> {
    var (host, port) := ParseDestination(destination);
    match p
    case Some(Udp) => ["rtph264pay", "config-interval=1", "pt=96", "!", "udpsink", "host=" + host, "port=" + port]
    case Some(Tcp) => ["rtph264pay", "config-interval=1", "pt=96", "!", "tcpserversink", "host=" + host, "port=" + port]
    case Some(Hls) => ["mp4mux", "!", "filesink", "location=" + HLS_FILE]
    case None => []
  }

  /** The `v4l2src` ... `h264parse !` head of the USB pipeline. */
  function UsbHead(device: string, width: string, height: string, fps: int, bitrate: int): (r: seq<string>)
    ensures |r| == 25 && r[0] == GST_LAUNCH && r[2] == V4L2_SOURCE
  {
    [GST_LAUNCH, "-v", V4L2_SOURCE, "device=" + device, "io-mode=2", "!",
     "decodebin", "!", "videoconvert", "n-threads=0", "!", "videoscale", "method=0", "!",
     Caps(width, height, fps), "!",
     "x264enc", "bitrate=" + IntToString(bitrate), "tune=zerolatency", "speed-preset=ultrafast",
     "key-int-max=30", "threads=0", "!", "h264parse", "!"]
  }

  /** The `libcamerasrc` ... `h264parse !` head of the fallback Pi pipeline. */
  function LibcameraHead(width: string, height: string, fps: int, bitrate: int): (r: seq<string>)
    ensures |r| == 17 && r[0] == GST_LAUNCH && r[2] == LIBCAMERA_SOURCE
  {
    [GST_LAUNCH, "-v", LIBCAMERA_SOURCE, "!", Caps(width, height, fps), "!",
     "videoconvert", "n-threads=0", "!",
     "x264enc", "bitrate=" + IntToString(bitrate), "tune=zerolatency", "speed-preset=ultrafast",
     "key-int-max=30", "!", "h264parse", "!"]
  }

  /** `--bitrate` of the rpicam shell line: `rpicam-vid` takes bits per second. */
  function BitrateClause(bitrate: int): string {
    " --bitrate " + IntToString(bitrate * 1000) + " "
  }

  function UdpSinkClause(host: string, port: string): string {
    "udpsink host=" + host + " port=" + port
  }

  const RPICAM_PIPE := "--codec h264 --inline --flush --libav-format h264 -o - | gst-launch-1.0 fdsrc ! h264parse ! rtph264pay config-interval=1 pt=96 ! "

  /** The `rpicam-vid ... | gst-launch-1.0 ...` shell line of the Pi 5 pipeline. */
  function RpicamCommand(width: string, height: string, fps: int, bitrate: int, host: string, port: string): string {
    ("rpicam-vid --nopreview -t 0 --width " + width + " --height " + height + " --framerate " + IntToString(fps))
      + BitrateClause(bitrate) + (RPICAM_PIPE + UdpSinkClause(host, port))
  }

  /** The Pi camera is driven by `rpicam-vid`: no device, or a device naming rpicam or libcamera. */
  predicate UsesRpicam(device: Option<string>) {
    device.None? || device.value == "" || Contains(device.value, "rpicam") || Contains(device.value, "libcamera")
  }

  /** `_build_usb_pipeline`; `None` where the resolution does not unpack. */
  function UsbPipeline(c: StreamConfig, p: Option<StreamProtocol>): (r: Option<seq<string>>)
    ensures r.Some? <==> SplitPair(Resolution(c), 'x').Some?
    ensures r.Some? ==> |r.value| >= 25 && r.value[0] == GST_LAUNCH && r.value[2] == V4L2_SOURCE
  {
    match SplitPair(Resolution(c), 'x')
    case None => None
    case Some((w, h)) => Some(UsbHead(c.device.GetOr(DEFAULT_DEVICE), w, h, Fps(c), Bitrate(c)) + Sink(p, c.destination))
  }

  /** `_build_picamera_pipeline`; `None` where the resolution does not unpack. */
  function PiPipeline(c: StreamConfig, p: Option<StreamProtocol>): (r: Option<seq<string>>)
    ensures r.Some? <==> SplitPair(Resolution(c), 'x').Some?
    ensures r.Some? && UsesRpicam(c.device) ==> |r.value| == 3 && r.value[0] == "sh" && r.value[1] == "-c"
    ensures r.Some? && !UsesRpicam(c.device) ==> |r.value| >= 17 && r.value[0] == GST_LAUNCH && r.value[2] == LIBCAMERA_SOURCE
  {
    match SplitPair(Resolution(c), 'x')
    case None => None
    case Some((w, h)) =>
      if UsesRpicam(c.device) then
        var (host, port) := ParseDestination(c.destination);
        Some(["sh", "-c", RpicamCommand(w, h, Fps(c), Bitrate(c), host, port)])
      else
        Some(LibcameraHead(w, h, Fps(c), Bitrate(c)) + Sink(p, c.destination))
  }

  /** `_build_pipeline`: dispatch on the camera type; no camera type gives `None`. */
  function BuildPipeline(t: Option<CameraType>, p: Option<StreamProtocol>, c: StreamConfig): (r: Option<seq<string>>)
    ensures t.None? ==> r.None?
    ensures t == Some(Usb) ==> r == UsbPipeline(c, p)
    ensures t == Some(PiCamera) ==> r == PiPipeline(c, p)
    ensures r.Some? ==> |r.value| >= 3
  {
    match t
    case None => None
    case Some(Usb) => UsbPipeline(c, p)
    case Some(PiCamera) => PiPipeline(c, p)
  }

  /** `pipeline[0] == "sh" and pipeline[1] == "-c"`: the pipeline is a shell line. */
  predicate IsShell(pipeline: seq<string>) {
    |pipeline| >= 2 && pipeline[0] == "sh" && pipeline[1] == "-c"
  }

  /** Both GStreamer builders end with the protocol's sink. */
  lemma EndsWithSink(t: CameraType, p: Option<StreamProtocol>, c: StreamConfig)
    requires BuildPipeline(Some(t), p, c).Some? && (t == PiCamera ==> !UsesRpicam(c.device))
    ensures EndsWith(BuildPipeline(Some(t), p, c).value, Sink(p, c.destination))
  {
    var r := BuildPipeline(Some(t), p, c).value;
    var (w, h) := SplitPair(Resolution(c), 'x').value;
    var head := if t == Usb then UsbHead(c.device.GetOr(DEFAULT_DEVICE), w, h, Fps(c), Bitrate(c))
                else LibcameraHead(w, h, Fps(c), Bitrate(c));
    assert r == head + Sink(p, c.destination);
    EndsWithSuffixOfLast(head, Sink(p, c.destination), 0);
  }

  /** The sink's last elements name the protocol's sink and its host/port or file. */
  lemma SinkTail(p: Option<StreamProtocol>, destination: Option<string>)
    ensures var sink := Sink(p, destination);
            var (host, port) := ParseDestination(destination);
            && (p == Some(Udp) ==> EndsWith(sink, ["udpsink", "host=" + host, "port=" + port]))
            && (p == Some(Tcp) ==> EndsWith(sink, ["tcpserversink", "host=" + host, "port=" + port]))
            && (p == Some(Hls) ==> sink == ["mp4mux", "!", "filesink", "location=" + HLS_FILE])
            && (p.None? ==> sink == [])
  {
    var sink := Sink(p, destination);
    if p == Some(Udp) || p == Some(Tcp) {
      assert sink[|sink| - 3..] == sink[4..];
    }
  }

  /** The sink element, and its host/port or file, match the protocol. */
  lemma SinkMatchesProtocol(t: CameraType, p: Option<StreamProtocol>, c: StreamConfig)
    requires BuildPipeline(Some(t), p, c).Some? && (t == PiCamera ==> !UsesRpicam(c.device))
    ensures var r := BuildPipeline(Some(t), p, c).value;
            var (host, port) := ParseDestination(c.destination);
            && (p == Some(Udp) ==> EndsWith(r, ["udpsink", "host=" + host, "port=" + port]))
            && (p == Some(Tcp) ==> EndsWith(r, ["tcpserversink", "host=" + host, "port=" + port]))
            && (p == Some(Hls) ==> EndsWith(r, ["mp4mux", "!", "filesink", "location=" + HLS_FILE]))
            && (p.None? ==> r[|r| - 1] == "!")
  {
    var r := BuildPipeline(Some(t), p, c).value;
    var (host, port) := ParseDestination(c.destination);
    EndsWithSink(t, p, c);
    SinkTail(p, c.destination);
    if p == Some(Udp) {
      EndsWithTrans(r, Sink(p, c.destination), ["udpsink", "host=" + host, "port=" + port]);
    } else if p == Some(Tcp) {
      EndsWithTrans(r, Sink(p, c.destination), ["tcpserversink", "host=" + host, "port=" + port]);
    } else if p.None? {
      var (w, h) := SplitPair(Resolution(c), 'x').value;
      if t == Usb {
        assert r == UsbHead(c.device.GetOr(DEFAULT_DEVICE), w, h, Fps(c), Bitrate(c)) + [];
      } else {
        assert r == LibcameraHead(w, h, Fps(c), Bitrate(c)) + [];
      }
    }
  }

  /** The rpicam shell line holds the bitrate clause and ends with the UDP sink. */
  lemma RpicamCommandParts(w: string, h: string, fps: int, bitrate: int, host: string, port: string)
    ensures Contains(RpicamCommand(w, h, fps, bitrate, host, port), BitrateClause(bitrate))
    ensures EndsWith(RpicamCommand(w, h, fps, bitrate, host, port), UdpSinkClause(host, port))
  {
    MiddleAndEnd("rpicam-vid --nopreview -t 0 --width " + w + " --height " + h + " --framerate " + IntToString(fps),
                 BitrateClause(bitrate), RPICAM_PIPE, UdpSinkClause(host, port));
  }

  /**
   * The rpicam shell line carries the bitrate in bits per second and always ends in a UDP
   * sink to the configured destination, whatever the protocol.
   */
  lemma RpicamLine(c: StreamConfig, p: Option<StreamProtocol>)
    requires PiPipeline(c, p).Some? && UsesRpicam(c.device)
    ensures var cmd := PiPipeline(c, p).value[2];
            var (host, port) := ParseDestination(c.destination);
            && Contains(cmd, BitrateClause(Bitrate(c)))
            && EndsWith(cmd, UdpSinkClause(host, port))
  {
    var (w, h) := SplitPair(Resolution(c), 'x').value;
    var (host, port) := ParseDestination(c.destination);
    RpicamCommandParts(w, h, Fps(c), Bitrate(c), host, port);
  }

  // ================================================================ the streamer

  /** What launching the pipeline led to, two seconds later. */
  datatype LaunchOutcome =
    | NotFound                                   // Popen raised FileNotFoundError
    | Exited(pid: nat, code: int, stderr: string) // the process had already exited
    | Alive(pid: nat)                              // still running

  datatype StartReply =
    | Streaming(cameraType: string, protocol: string, pipeline: string)
    | StartError(message: string)

  datatype StopReply = StreamStopped | StopError(message: string)

  /** What one round of the watchdog loop did. */
  datatype WatchdogAction = LoopEnded | Healthy | Restarted | GaveUp

  datatype StreamStatus = StreamStatus(
    running: bool, cameraType: Option<string>, protocol: Option<string>,
    config: Option<StreamConfig>, pid: Option<nat>, retryCount: nat, maxRetries: nat, autoRetry: bool)

  const ALREADY_STREAMING := "Already streaming"
  const NO_CAMERA_TYPE := "Camera type not specified"
  const PIPELINE_FAILED := "Failed to build pipeline"
  /** The enum name in the ValueError that `CameraType(value)` raises for an unknown value. */
  const CAMERA_TYPE_ENUM := "CameraType"
  const PROTOCOL_ENUM := "StreamProtocol"
  const GSTREAMER_NOT_FOUND :=
    "GStreamer not found. Please install: sudo apt-get install gstreamer1.0-tools gstreamer1.0-plugins-base gstreamer1.0-plugins-good gstreamer1.0-plugins-bad"

  /** The error `start` reports for a process that exited at once; a shell line has no stderr pipe. */
  function EarlyExitMessage(shell: bool, code: int, stderr: string): string {
    if shell then "Process failed to start (exit code " + IntToString(code) + ")"
    else "GStreamer failed to start (exit code " + IntToString(code) + "): " + Take(stderr, 500)
  }

  /**
   * The message of the `ValueError` an enum constructor raises for a value it does not have,
   * which `start` returns as `str(e)`: `"%r is not a valid %s"`.
   */
  function NotValid(value: string, enumName: string): (r: string)
    ensures EndsWith(r, " is not a valid " + enumName)
    ensures var n := |r| - |" is not a valid " + enumName|;
      && n >= 2 && r[0] == r[n - 1] == ReprQuote(value) && Unescape(r[1..n - 1]) == value
  {
    var q := PyRepr(value);
    var r := q + " is not a valid " + enumName;
    ReprRoundTrip(value);
    assert r[..|q|] == q && r[1..|q| - 1] == q[1..|q| - 1];
    r
  }

  /**
   * The retry counter after the process is found dead: `None` when the watchdog gives up,
   * otherwise the incremented count.
   */
  function NextRetry(count: nat): (r: Option<nat>)
    ensures r.None? <==> count >= MAX_RETRIES
    ensures r.Some? ==> r.value == count + 1 && r.value <= MAX_RETRIES
  {
    if count < MAX_RETRIES then Some(count + 1) else None
  }

  /** The counter after `n` deaths whose restarts all failed, or `None` once the watchdog gave up. */
  function CountAfterDeaths(count: nat, n: nat): Option<nat>
    decreases n
  {
    if n == 0 then Some(count)
    else match NextRetry(count)
      case None => None
      case Some(c) => CountAfterDeaths(c, n - 1)
  }

  /** When restarts keep failing the watchdog gives up on the first death after `max_retries - count` restarts. */
  lemma {:induction false} GivesUpAfterMaxRetries(count: nat, n: nat)
    requires count <= MAX_RETRIES
    ensures CountAfterDeaths(count, n).None? <==> n > MAX_RETRIES - count
    ensures CountAfterDeaths(count, n).Some? ==> CountAfterDeaths(count, n).value == count + n
    decreases n
  {
    if n > 0 && count < MAX_RETRIES {
      GivesUpAfterMaxRetries(count + 1, n - 1);
    }
  }

  class VideoStreamer {
    var process: Option<nat>
    var cameraType: Option<CameraType>
    var protocol: Option<StreamProtocol>
    var running: bool
    var config: StreamConfig
    var retryCount: nat
    const autoRetry: bool
    const maxRetries: nat

    /** The counter stays within the limit, and a stopped streamer holds no process. */
    predicate Valid()
      reads this
    {
      maxRetries == MAX_RETRIES && retryCount <= maxRetries && (!running ==> process.None?)
    }

    constructor()
      ensures Valid() && !running && process.None? && cameraType.None? && protocol.None?
      ensures config == EmptyConfig && retryCount == 0 && autoRetry
    {
      process := None;
      cameraType := None;
      protocol := None;
      running := false;
      config := EmptyConfig;
      retryCount := 0;
      autoRetry := true;
      maxRetries := MAX_RETRIES;
    }

    /** `start(config)`: validate, build the pipeline, launch it and see whether it stayed up. */
    method Start(c: StreamConfig, launch: LaunchOutcome) returns (r: StartReply)
      requires Valid()
      modifies this
      ensures Valid()
      ensures old(running) ==> r == StartError(ALREADY_STREAMING) && unchanged(this)
      ensures !old(running) && OrText(c.cameraType, "") == "" ==>
                r == StartError(NO_CAMERA_TYPE) && unchanged(this)
      ensures !old(running) && OrText(c.cameraType, "") != "" && ParseCameraType(c.cameraType.value).None? ==>
                r == StartError(NotValid(c.cameraType.value, CAMERA_TYPE_ENUM)) && unchanged(this)
      ensures !old(running) && OrText(c.cameraType, "") != "" && ParseCameraType(c.cameraType.value).Some? ==>
                cameraType == ParseCameraType(c.cameraType.value)
      ensures !old(running) && OrText(c.cameraType, "") != "" && ParseCameraType(c.cameraType.value).Some?
              && ParseProtocol(c.protocol.GetOr("udp")).None? ==>
                && r == StartError(NotValid(c.protocol.GetOr("udp"), PROTOCOL_ENUM))
                && protocol == old(protocol) && config == old(config) && !running && process.None?
                && retryCount == old(retryCount)
      ensures !old(running) && OrText(c.cameraType, "") != "" && ParseCameraType(c.cameraType.value).Some?
              && ParseProtocol(c.protocol.GetOr("udp")).Some? ==>
                var pipeline := BuildPipeline(cameraType, protocol, c);
                && protocol == ParseProtocol(c.protocol.GetOr("udp")) && config == c
                && (pipeline.None? ==> r == StartError(PIPELINE_FAILED) && !running && process.None?
                                       && retryCount == old(retryCount))
                && (pipeline.Some? && launch.NotFound? ==>
                      r == StartError(GSTREAMER_NOT_FOUND) && !running && process.None? && retryCount == old(retryCount))
                && (pipeline.Some? && launch.Exited? ==>
                      && r == StartError(EarlyExitMessage(IsShell(pipeline.value), launch.code, launch.stderr))
                      && !running && process.None? && retryCount == old(retryCount))
                && (pipeline.Some? && launch.Alive? ==>
                      && r == Streaming(c.cameraType.value, ProtocolValue(protocol.value), Join(pipeline.value, ' '))
                      && running && process == Some(launch.pid) && retryCount == 0)
    {
      if running {
        return StartError(ALREADY_STREAMING);
      }
      if c.cameraType.None? || c.cameraType.value == "" {
        return StartError(NO_CAMERA_TYPE);
      }
      var t := ParseCameraType(c.cameraType.value);
      if t.None? {
        return StartError(NotValid(c.cameraType.value, CAMERA_TYPE_ENUM));
      }
      cameraType := t;
      var p := ParseProtocol(c.protocol.GetOr("udp"));
      if p.None? {
        return StartError(NotValid(c.protocol.GetOr("udp"), PROTOCOL_ENUM));
      }
      protocol := p;
      config := c;
      var pipeline := BuildPipeline(t, p, c);
      if pipeline.None? {
        return StartError(PIPELINE_FAILED);
      }
      r := Launch(pipeline.value, c.cameraType.value, launch);
    }

    /** The `Popen` part of `start()`, two seconds after launching `pipeline`. */
    method Launch(pipeline: seq<string>, cameraName: string, launch: LaunchOutcome) returns (r: StartReply)
      requires Valid() && !running && protocol.Some? && |pipeline| >= 1
      modifies this`process, this`running, this`retryCount
      ensures Valid()
      ensures launch.NotFound? ==>
                r == StartError(GSTREAMER_NOT_FOUND) && !running && process.None? && retryCount == old(retryCount)
      ensures launch.Exited? ==>
                && r == StartError(EarlyExitMessage(IsShell(pipeline), launch.code, launch.stderr))
                && !running && process.None? && retryCount == old(retryCount)
      ensures launch.Alive? ==>
                && r == Streaming(cameraName, ProtocolValue(protocol.value), Join(pipeline, ' '))
                && running && process == Some(launch.pid) && retryCount == 0
    {
      match launch
      case NotFound =>
        return StartError(GSTREAMER_NOT_FOUND);
      case Exited(_, code, stderr) =>
        process := None;
        return StartError(EarlyExitMessage(IsShell(pipeline), code, stderr));
      case Alive(pid) =>
        process := Some(pid);
        running := true;
        retryCount := 0;
        return Streaming(cameraName, ProtocolValue(protocol.value), Join(pipeline, ' '));
    }

    /** `stop()`: terminate the process; refused unless streaming with a process. */
    method Stop() returns (r: StopReply)
      requires Valid()
      modifies this
      ensures Valid()
      ensures !old(running) || old(process).None? ==> r == StopError("Not streaming") && unchanged(this)
      ensures old(running) && old(process).Some? ==>
                && r == StreamStopped && !running && process.None? && retryCount == 0
                && cameraType == old(cameraType) && protocol == old(protocol) && config == old(config)
    {
      if !running || process.None? {
        return StopError("Not streaming");
      }
      process := None;
      running := false;
      retryCount := 0;
      return StreamStopped;
    }

    /**
     * One round of `_watchdog`: when the process has died, restart it while the counter is
     * below `max_retries` (counting the attempt), otherwise give up and stop streaming.
     */
    method WatchdogRound(died: bool, relaunch: LaunchOutcome) returns (a: WatchdogAction)
      requires Valid()
      modifies this
      ensures Valid()
      ensures cameraType == old(cameraType) && protocol == old(protocol) && config == old(config)
      ensures !old(running) ==> a == LoopEnded && unchanged(this)
      ensures old(running) && (old(process).None? || !died) ==> a == Healthy && unchanged(this)
      ensures old(running) && old(process).Some? && died && NextRetry(old(retryCount)).None? ==>
                a == GaveUp && !running && process.None? && retryCount == old(retryCount)
      ensures old(running) && old(process).Some? && died && NextRetry(old(retryCount)).Some? ==>
                var pipeline := BuildPipeline(cameraType, protocol, config);
                && a == Restarted && running
                && (pipeline.None? || relaunch.NotFound? ==> process.None? && retryCount == old(retryCount) + 1)
                && (pipeline.Some? && relaunch.Exited? ==> process == Some(relaunch.pid) && retryCount == old(retryCount) + 1)
                && (pipeline.Some? && relaunch.Alive? ==> process == Some(relaunch.pid) && retryCount == 0)
    {
      if !running {
        return LoopEnded;
      }
      if process.None? || !died {
        return Healthy;
      }
      if retryCount < maxRetries {
        retryCount := retryCount + 1;
        Restart(relaunch);
        return Restarted;
      }
      running := false;
      process := None;
      return GaveUp;
    }

    /** `_restart()`: drop the old process, rebuild the pipeline from the stored settings and relaunch. */
    method Restart(relaunch: LaunchOutcome)
      requires Valid() && running
      modifies this`process, this`retryCount
      ensures Valid() && running
      ensures var pipeline := BuildPipeline(cameraType, protocol, config);
              && (pipeline.None? || relaunch.NotFound? ==> process.None? && retryCount == old(retryCount))
              && (pipeline.Some? && relaunch.Exited? ==> process == Some(relaunch.pid) && retryCount == old(retryCount))
              && (pipeline.Some? && relaunch.Alive? ==> process == Some(relaunch.pid) && retryCount == 0)
    {
      process := None;
      var pipeline := BuildPipeline(cameraType, protocol, config);
      if pipeline.None? {
        return;
      }
      match relaunch
      case NotFound =>
      case Exited(pid, _, _) =>
        process := Some(pid);
      case Alive(pid) =>
        process := Some(pid);
        retryCount := 0;
    }

    /** `get_status()`: the settings are reported only while streaming. */
    function Status(): (s: StreamStatus)
      reads this
      ensures s.running == running && s.retryCount == retryCount && s.maxRetries == maxRetries
      ensures s.config.Some? <==> running
      ensures s.pid == process
      ensures s.cameraType.Some? <==> cameraType.Some?
      ensures cameraType.Some? ==> s.cameraType == Some(CameraTypeValue(cameraType.value))
      ensures s.protocol.Some? <==> protocol.Some?
      ensures protocol.Some? ==> s.protocol == Some(ProtocolValue(protocol.value))
      ensures running ==> s.config == Some(config)
      ensures s.autoRetry == autoRetry
    {
      StreamStatus(running,
                   if cameraType.Some? then Some(CameraTypeValue(cameraType.value)) else None,
                   if protocol.Some? then Some(ProtocolValue(protocol.value)) else None,
                   if running then Some(config) else None,
                   process, retryCount, maxRetries, autoRetry)
    }
  }
}
