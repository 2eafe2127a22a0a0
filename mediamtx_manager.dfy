/**
 * The MediaMTX server manager (backend/app/services/mediamtx_manager.py).
 *
 * `GenerateConfig` builds the `mediamtx.yml` document from the default document and the
 * streaming settings by the same conditional key writes as `_generate_config`; the YAML
 * document is a `map` of `Yaml` values, so key order is not modelled. `MediaMtxManager`
 * holds `running`, `process`, the stored settings and the last document written. The
 * binary's presence, the launched process and the default file's content are inputs.
 */
module MediaMtxManager {
  import opened Wrappers
  import opened Strings

  datatype CameraType = Usb | PiCamera

  /** `CameraType(s)`: `None` where the enum constructor raises `ValueError`. */
  function ParseCameraType(s: string): (r: Option<CameraType>)
    ensures r == Some(Usb) <==> s == "usb"
    ensures r == Some(PiCamera) <==> s == "picamera"
  {
    if s == "usb" then Some(Usb) else if s == "picamera" then Some(PiCamera) else None
  }

  /** The settings dict; a `None` field is a key the dict does not have. */
  datatype MtxConfig = MtxConfig(
    cameraType: Option<string>, pathName: Option<string>, device: Option<string>,
    resolution: Option<string>, fps: Option<int>, bitrate: Option<int>,
    rtspEnabled: Option<bool>, hlsEnabled: Option<bool>, webrtcEnabled: Option<bool>, rtmpEnabled: Option<bool>,
    authEnabled: Option<bool>, username: Option<string>, password: Option<string>,
    recordEnabled: Option<bool>, recordPath: Option<string>, recordFormat: Option<string>,
    runOnDemand: Option<bool>, startTimeout: Option<string>, closeAfter: Option<string>)

  const EmptyConfig := MtxConfig(None, None, None, None, None, None, None, None, None, None,
                                 None, None, None, None, None, None, None, None, None)

  /**
   * A YAML value of the document. `YPath` is a path mapping the manager writes, keyed by
   * the path settings it knows; any other mapping of the default document is a `YMapping`.
   */
  datatype Yaml =
    | YBool(b: bool) | YInt(i: int) | YText(s: string) | YNull
    | YMapping(m: map<string, Yaml>)
    | YPath(p: map<PathKey, Yaml>)

  /** The top-level keys `_generate_config` writes; `Setting` is any other key of the default document. */
  datatype GlobalKey =
    | Api | ApiAddress | AuthMethod | RtspDisable | HlsDisable | WebrtcDisable | RtmpDisable | Paths
    | Setting(name: string)

  /** The keys of a path mapping the manager writes. */
  datatype PathKey =
    | Source | RpiCameraWidth | RpiCameraHeight | RpiCameraFPS | RpiCameraBitrate
    | SourceOnDemand | SourceOnDemandStartTimeout | SourceOnDemandCloseAfter
    | ReadUser | ReadPass | PublishUser | PublishPass | Record | RecordPath | RecordFormat

  /** The protocols `_get_stream_urls` can list. */
  datatype UrlKind = Rtsp | Hls | WebRtc | Rtmp

  const API_ADDRESS := "127.0.0.1:9997"
  // The manager's fixed ports, as the decimal text the URLs interpolate.
  const RTSP_PORT := "8554"
  const HLS_PORT := "8888"
  const WEBRTC_PORT := "8889"
  const RTMP_PORT := "1935"
  const SERVER_IP := "{{SERVER_IP}}"
  const BINARY_PATH := "/usr/local/bin/mediamtx"
  const DEFAULT_PATH_NAME := "uav-camera"
  const PI_PATH_NAME := "cam"

  /** The camera type the settings name, `usb` when they name none. */
  function CameraTypeOf(c: MtxConfig): Option<CameraType> {
    ParseCameraType(c.cameraType.GetOr("usb"))
  }

  /** The MediaMTX path: always `cam` for the Pi camera, else the configured name. */
  function PathName(t: CameraType, c: MtxConfig): (r: string)
    ensures t == PiCamera ==> r == PI_PATH_NAME
    ensures t == Usb && c.pathName.None? ==> r == DEFAULT_PATH_NAME
    ensures t == Usb && c.pathName.Some? ==> r == c.pathName.value
  {
    if t == PiCamera then PI_PATH_NAME else c.pathName.GetOr(DEFAULT_PATH_NAME)
  }

  // ================================================================ stream URLs

  function Url(scheme: string, port: string, pathName: string): string {
    scheme + "://" + SERVER_IP + ":" + port + "/" + pathName
  }

  /** `_get_stream_urls(path_name)`: one URL per enabled protocol. */
  function StreamUrls(c: MtxConfig, pathName: string): (urls: map<UrlKind, string>)
    ensures Rtsp in urls <==> c.rtspEnabled.GetOr(true)
    ensures Hls in urls <==> c.hlsEnabled.GetOr(true)
    ensures WebRtc in urls <==> c.webrtcEnabled.GetOr(true)
    ensures Rtmp in urls <==> c.rtmpEnabled.GetOr(false)
    ensures Rtsp in urls ==> urls[Rtsp] == Url("rtsp", RTSP_PORT, pathName)
    ensures Hls in urls ==> urls[Hls] == Url("http", HLS_PORT, pathName)
    ensures WebRtc in urls ==> urls[WebRtc] == Url("http", WEBRTC_PORT, pathName)
    ensures Rtmp in urls ==> urls[Rtmp] == Url("rtmp", RTMP_PORT, pathName)
  {
    var u0: map<UrlKind, string> := map[];
    var u1 := if c.rtspEnabled.GetOr(true) then u0[Rtsp := Url("rtsp", RTSP_PORT, pathName)] else u0;
    var u2 := if c.hlsEnabled.GetOr(true) then u1[Hls := Url("http", HLS_PORT, pathName)] else u1;
    var u3 := if c.webrtcEnabled.GetOr(true) then u2[WebRtc := Url("http", WEBRTC_PORT, pathName)] else u2;
    if c.rtmpEnabled.GetOr(false) then u3[Rtmp := Url("rtmp", RTMP_PORT, pathName)] else u3
  }

  /** Every stream URL ends with the path. */
  lemma UrlsEndWithPath(c: MtxConfig, pathName: string)
    ensures forall k :: k in StreamUrls(c, pathName) ==> EndsWith(StreamUrls(c, pathName)[k], "/" + pathName)
  {
    var urls := StreamUrls(c, pathName);
    forall k | k in urls ensures EndsWith(urls[k], "/" + pathName) {
      var scheme := match k case Rtsp => "rtsp" case Rtmp => "rtmp" case _ => "http";
      var port := match k case Rtsp => RTSP_PORT case Hls => HLS_PORT case WebRtc => WEBRTC_PORT case Rtmp => RTMP_PORT;
      var front := scheme + "://" + SERVER_IP + ":" + port;
      assert urls[k] == front + ("/" + pathName);
      EndsWithSuffixOfLast(front, "/" + pathName, 0);
    }
  }

  // ================================================================ the generated document

  /** Why `_generate_config` raised. */
  datatype ConfigError =
    | UnknownCameraType(value: string)  // CameraType(...) raised ValueError
    | BadResolution(resolution: string) // `width, height = resolution.split("x")` raised ValueError
    | BadDimension(text: string)        // int(width) or int(height) raised ValueError
    | PathsNotMapping                   // the default document's `paths` is not a mapping

  /** Where ffmpeg publishes; MediaMTX substitutes its RTSP port. */
  const PUBLISH_PREFIX := "rtsp://localhost:$RTSP_PORT/"

  // The fixed words of the ffmpeg command, between the values it interpolates.
  const FFMPEG_INPUT := "ffmpeg -f v4l2 -input_format mjpeg -video_size "
  const FFMPEG_RATE := " -framerate "
  const FFMPEG_DEVICE := " -i "
  const FFMPEG_ENCODE := " -c:v libx264 -preset ultrafast -tune zerolatency -b:v "
  const FFMPEG_MAXRATE := "k -maxrate "
  const FFMPEG_BUFSIZE := "k -bufsize "
  const FFMPEG_GOP := "k -g "
  const FFMPEG_KEYINT := " -keyint_min "
  const FFMPEG_OUTPUT := " -f rtsp "

  /** The ffmpeg command that publishes a USB camera to the path. */
  function FfmpegSource(resolution: string, fps: int, device: string, bitrate: int, pathName: string): string {
    (FFMPEG_INPUT + resolution + FFMPEG_RATE + IntToString(fps) + FFMPEG_DEVICE + device
     + FFMPEG_ENCODE + IntToString(bitrate) + FFMPEG_MAXRATE + IntToString(bitrate)
     + FFMPEG_BUFSIZE + IntToString(bitrate * 2) + FFMPEG_GOP + IntToString(fps)
     + FFMPEG_KEYINT + IntToString(fps) + FFMPEG_OUTPUT)
    + (PUBLISH_PREFIX + pathName)
  }

  /** The USB camera's ffmpeg command for the settings, with their defaults. */
  function UsbSource(c: MtxConfig, resolution: string, pathName: string): string {
    FfmpegSource(resolution, c.fps.GetOr(30), c.device.GetOr("/dev/video0"), c.bitrate.GetOr(2000), pathName)
  }

  /** The recording file pattern under the configured directory. */
  function RecordPathOf(c: MtxConfig): string {
    c.recordPath.GetOr(RECORD_DIR) + RECORD_PATTERN + c.recordFormat.GetOr("mp4")
  }

  const RECORD_DIR := "/opt/uavcast/recordings"
  /** One file per recording, named by path and start time; the format is the extension. */
  const RECORD_PATTERN := "/%path/%Y-%m-%d_%H-%M-%S."

  /** The ffmpeg command publishes over RTSP to the path it configures. */
  lemma FfmpegPublishesToPath(resolution: string, fps: int, device: string, bitrate: int, pathName: string)
    ensures EndsWith(FfmpegSource(resolution, fps, device, bitrate, pathName), PUBLISH_PREFIX + pathName)
  {
    var front := FFMPEG_INPUT + resolution + FFMPEG_RATE + IntToString(fps) + FFMPEG_DEVICE + device
     + FFMPEG_ENCODE + IntToString(bitrate) + FFMPEG_MAXRATE + IntToString(bitrate)
     + FFMPEG_BUFSIZE + IntToString(bitrate * 2) + FFMPEG_GOP + IntToString(fps)
     + FFMPEG_KEYINT + IntToString(fps) + FFMPEG_OUTPUT;
    EndsWithSuffixOfLast(front, PUBLISH_PREFIX + pathName, 0);
  }

  /** The document's `paths` mapping, or `{}` when it has none. */
  function PathsOf(cfg: map<GlobalKey, Yaml>): Yaml {
    if Paths in cfg then cfg[Paths] else YMapping(map[])
  }

  /** Credentials are written when authentication is on and both a user name and a password are given. */
  predicate AuthWanted(c: MtxConfig) {
    c.authEnabled.GetOr(false) && c.username.GetOr("") != "" && c.password.GetOr("") != ""
  }

  /** The Pi camera runs at 1920x1080 unless told otherwise; other sizes go through `int(...)`. */
  predicate DimensionsRejected(width: string, height: string, w: Option<int>, h: Option<int>) {
    (width != "1920" || height != "1080") && (w.None? || h.None?)
  }

  /** The `rpiCamera` path holds only the settings that differ from MediaMTX's own defaults. */
  predicate PiPathSpec(p: map<PathKey, Yaml>, width: string, height: string, w: Option<int>, h: Option<int>,
                       fps: int, bitrate: int)
    requires !DimensionsRejected(width, height, w, h)
  {
    && p.Keys <= {Source, RpiCameraWidth, RpiCameraHeight, RpiCameraFPS, RpiCameraBitrate}
    && Source in p && p[Source] == YText("rpiCamera")
    && (RpiCameraWidth in p <==> width != "1920" || height != "1080")
    && (RpiCameraHeight in p <==> width != "1920" || height != "1080")
    && (RpiCameraWidth in p ==> p[RpiCameraWidth] == YInt(w.value) && p[RpiCameraHeight] == YInt(h.value))
    && (RpiCameraFPS in p <==> fps != 30)
    && (RpiCameraFPS in p ==> p[RpiCameraFPS] == YInt(fps))
    && (RpiCameraBitrate in p <==> bitrate != 1000)
    && (RpiCameraBitrate in p ==> p[RpiCameraBitrate] == YInt(bitrate * 1000))
  }

  /** The USB path: an on-demand ffmpeg source, plus credentials and recording when asked for. */
  predicate UsbPathSpec(p: map<PathKey, Yaml>, c: MtxConfig, source: string) {
    UsbSourceSpec(p, c, source) && CredentialsSpec(p, c) && RecordingSpec(p, c)
  }

  /** The USB path's keys, and its on-demand ffmpeg source. */
  predicate UsbSourceSpec(p: map<PathKey, Yaml>, c: MtxConfig, source: string) {
    && p.Keys <= {SourceOnDemand, SourceOnDemandStartTimeout, SourceOnDemandCloseAfter, Source,
                  ReadUser, ReadPass, PublishUser, PublishPass, Record, RecordPath, RecordFormat}
    && SourceOnDemand in p && p[SourceOnDemand] == YBool(c.runOnDemand.GetOr(true))
    && SourceOnDemandStartTimeout in p && p[SourceOnDemandStartTimeout] == YText(c.startTimeout.GetOr("10s"))
    && SourceOnDemandCloseAfter in p && p[SourceOnDemandCloseAfter] == YText(c.closeAfter.GetOr("10s"))
    && Source in p && p[Source] == YText(source)
  }

  /** Read and publish credentials, exactly when authentication is wanted. */
  predicate CredentialsSpec(p: map<PathKey, Yaml>, c: MtxConfig) {
    && (ReadUser in p <==> AuthWanted(c)) && (ReadPass in p <==> AuthWanted(c))
    && (PublishUser in p <==> AuthWanted(c)) && (PublishPass in p <==> AuthWanted(c))
    && (AuthWanted(c) ==> && p[ReadUser] == YText(c.username.value) && p[PublishUser] == YText(c.username.value)
                          && p[ReadPass] == YText(c.password.value) && p[PublishPass] == YText(c.password.value))
  }

  /** Recording keys, exactly when recording is enabled. */
  predicate RecordingSpec(p: map<PathKey, Yaml>, c: MtxConfig) {
    && (Record in p <==> c.recordEnabled.GetOr(false)) && (RecordPath in p <==> c.recordEnabled.GetOr(false))
    && (RecordFormat in p <==> c.recordEnabled.GetOr(false))
    && (c.recordEnabled.GetOr(false) ==>
          && p[Record] == YBool(true)
          && p[RecordFormat] == YText(c.recordFormat.GetOr("mp4"))
          && p[RecordPath] == YText(RecordPathOf(c)))
  }

  /** The keys of the default document that `_generate_config` does not write keep their value. */
  predicate KeepsOthers(base: map<GlobalKey, Yaml>, cfg: map<GlobalKey, Yaml>, written: set<GlobalKey>) {
    && cfg.Keys == base.Keys + written
    && forall k :: k in base && k !in written ==> cfg[k] == base[k]
  }

  /** `paths` holds every path of the default document and, at `pathName`, a path mapping. */
  predicate PathsHold(base: map<GlobalKey, Yaml>, cfg: map<GlobalKey, Yaml>, pathName: string) {
    && PathsOf(base).YMapping?
    && Paths in cfg && cfg[Paths].YMapping?
    && cfg[Paths].m.Keys == PathsOf(base).m.Keys + {pathName}
    && (forall k :: k in PathsOf(base).m && k != pathName ==> cfg[Paths].m[k] == PathsOf(base).m[k])
    && cfg[Paths].m[pathName].YPath?
  }

  /** The path mapping written at `pathName`. */
  function PathAt(cfg: map<GlobalKey, Yaml>, pathName: string): map<PathKey, Yaml>
    requires Paths in cfg && cfg[Paths].YMapping? && pathName in cfg[Paths].m && cfg[Paths].m[pathName].YPath?
  {
    cfg[Paths].m[pathName].p
  }

  /** The control API is switched on at its fixed address. */
  predicate ApiOn(cfg: map<GlobalKey, Yaml>) {
    && Api in cfg && cfg[Api] == YBool(true)
    && ApiAddress in cfg && cfg[ApiAddress] == YText(API_ADDRESS)
  }

  /** The Pi camera document: the API, internal authentication and the `cam` path; nothing else changes. */
  predicate PiDocumentSpec(base: map<GlobalKey, Yaml>, cfg: map<GlobalKey, Yaml>) {
    && KeepsOthers(base, cfg, {Api, ApiAddress, AuthMethod, Paths})
    && ApiOn(cfg)
    && cfg[AuthMethod] == YText("internal")
    && PathsHold(base, cfg, PI_PATH_NAME)
  }

  /**
   * How the Pi camera branch ends: the resolution must split at one `x`, a size other than
   * 1920x1080 must parse, and the document's `paths` must be a mapping.
   */
  predicate PiOutcome(base: map<GlobalKey, Yaml>, resolution: string, fps: int, bitrate: int,
                      r: Result<map<GlobalKey, Yaml>, ConfigError>) {
    var dims := SplitPair(resolution, 'x');
    && (dims.None? ==> r == Err(BadResolution(resolution)))
    && (dims.Some? ==> PiSizedOutcome(base, dims.value.0, dims.value.1, ParseInt(dims.value.0), ParseInt(dims.value.1),
                                      fps, bitrate, r))
  }

  /** The Pi camera branch once the resolution has split into `width` and `height`, whose `int(...)` are `w` and `h`. */
  predicate PiSizedOutcome(base: map<GlobalKey, Yaml>, width: string, height: string, w: Option<int>, h: Option<int>,
                           fps: int, bitrate: int, r: Result<map<GlobalKey, Yaml>, ConfigError>) {
    && (DimensionsRejected(width, height, w, h) ==> r == Err(BadDimension(if w.None? then width else height)))
    && (!DimensionsRejected(width, height, w, h) ==>
          && (r.Err? <==> !PathsOf(base).YMapping?)
          && (r.Err? ==> r.error == PathsNotMapping)
          && (r.Ok? ==> && PiDocumentSpec(base, r.value)
                        && PiPathSpec(PathAt(r.value, PI_PATH_NAME), width, height, w, h, fps, bitrate)))
  }

  /** The keys the USB branch writes before `paths`: `rtspDisable` always, the other switches when present or enabled. */
  function SwitchKeys(base: map<GlobalKey, Yaml>, c: MtxConfig): (keys: set<GlobalKey>)
    ensures {Api, ApiAddress, RtspDisable} <= keys
    ensures HlsDisable in keys <==> HlsDisable in base || c.hlsEnabled.GetOr(true)
    ensures WebrtcDisable in keys <==> WebrtcDisable in base || c.webrtcEnabled.GetOr(true)
    ensures RtmpDisable in keys <==> RtmpDisable in base || c.rtmpEnabled.GetOr(false)
    ensures AuthMethod !in keys && Paths !in keys
  {
    {Api, ApiAddress, RtspDisable} + SwitchKey(base, HlsDisable, c.hlsEnabled.GetOr(true))
    + SwitchKey(base, WebrtcDisable, c.webrtcEnabled.GetOr(true)) + SwitchKey(base, RtmpDisable, c.rtmpEnabled.GetOr(false))
  }

  /** The switch `k` is written when the default document has it or its protocol is enabled. */
  function SwitchKey(base: map<GlobalKey, Yaml>, k: GlobalKey, enabled: bool): set<GlobalKey> {
    if k in base || enabled then {k} else {}
  }

  /** Each protocol switch the USB branch writes is the negation of the protocol's setting. */
  predicate SwitchesSet(cfg: map<GlobalKey, Yaml>, c: MtxConfig) {
    && RtspDisable in cfg && cfg[RtspDisable] == YBool(!c.rtspEnabled.GetOr(true))
    && (HlsDisable in cfg ==> cfg[HlsDisable] == YBool(!c.hlsEnabled.GetOr(true)))
    && (WebrtcDisable in cfg ==> cfg[WebrtcDisable] == YBool(!c.webrtcEnabled.GetOr(true)))
    && (RtmpDisable in cfg ==> cfg[RtmpDisable] == YBool(!c.rtmpEnabled.GetOr(false)))
  }

  /** How the USB branch ends: the resolution must split at one `x` and `paths` must be a mapping. */
  predicate UsbOutcome(base: map<GlobalKey, Yaml>, c: MtxConfig, resolution: string, pathName: string, source: string,
                       r: Result<map<GlobalKey, Yaml>, ConfigError>) {
    && (SplitPair(resolution, 'x').None? ==> r == Err(BadResolution(resolution)))
    && (SplitPair(resolution, 'x').Some? ==>
          && (r.Err? <==> !PathsOf(base).YMapping?)
          && (r.Err? ==> r.error == PathsNotMapping)
          && (r.Ok? ==> && KeepsOthers(base, r.value, SwitchKeys(base, c) + {Paths})
                        && ApiOn(r.value)
                        && SwitchesSet(r.value, c)
                        && PathsHold(base, r.value, pathName)
                        && UsbPathSpec(PathAt(r.value, pathName), c, source)))
  }

  // ---------------------------------------------------------------- the document, as values

  /** The Pi camera path mapping; `w` and `h` are `int(width)` and `int(height)`. */
  function PiPath(width: string, height: string, w: Option<int>, h: Option<int>, fps: int, bitrate: int)
    : Result<map<PathKey, Yaml>, ConfigError>
  {
    var custom := width != "1920" || height != "1080";
    if custom && w.None? then Err(BadDimension(width))
    else if custom && h.None? then Err(BadDimension(height))
    else
      var p0 := map[Source := YText("rpiCamera")];
      var p1 := if custom then p0[RpiCameraWidth := YInt(w.value)][RpiCameraHeight := YInt(h.value)] else p0;
      var p2 := if fps != 30 then p1[RpiCameraFPS := YInt(fps)] else p1;
      Ok(if bitrate != 1000 then p2[RpiCameraBitrate := YInt(bitrate * 1000)] else p2)
  }

  /** The USB path mapping before credentials and recording. */
  function UsbPathBase(c: MtxConfig, source: string): map<PathKey, Yaml> {
    map[SourceOnDemand := YBool(c.runOnDemand.GetOr(true)),
        SourceOnDemandStartTimeout := YText(c.startTimeout.GetOr("10s")),
        SourceOnDemandCloseAfter := YText(c.closeAfter.GetOr("10s"))][Source := YText(source)]
  }

  function WithCredentials(p: map<PathKey, Yaml>, c: MtxConfig): map<PathKey, Yaml> {
    if AuthWanted(c) then
      p[ReadUser := YText(c.username.value)][ReadPass := YText(c.password.value)]
       [PublishUser := YText(c.username.value)][PublishPass := YText(c.password.value)]
    else p
  }

  function WithRecording(p: map<PathKey, Yaml>, c: MtxConfig): map<PathKey, Yaml> {
    if c.recordEnabled.GetOr(false) then
      p[Record := YBool(true)][RecordPath := YText(RecordPathOf(c))][RecordFormat := YText(c.recordFormat.GetOr("mp4"))]
    else p
  }

  /** The USB camera path mapping publishing with the ffmpeg command `source`. */
  function UsbPath(c: MtxConfig, source: string): map<PathKey, Yaml> {
    WithRecording(WithCredentials(UsbPathBase(c, source), c), c)
  }

  /** A protocol switch is written when the document already has it or the protocol is enabled. */
  function Switch(cfg: map<GlobalKey, Yaml>, k: GlobalKey, enabled: bool): map<GlobalKey, Yaml> {
    if k in cfg || enabled then cfg[k := YBool(!enabled)] else cfg
  }

  /** The USB branch's writes before `paths`: the API and the protocol switches. */
  function Switches(base: map<GlobalKey, Yaml>, c: MtxConfig): map<GlobalKey, Yaml> {
    var cfg := base[Api := YBool(true)][ApiAddress := YText(API_ADDRESS)][RtspDisable := YBool(!c.rtspEnabled.GetOr(true))];
    Switch(Switch(Switch(cfg, HlsDisable, c.hlsEnabled.GetOr(true)), WebrtcDisable, c.webrtcEnabled.GetOr(true)),
           RtmpDisable, c.rtmpEnabled.GetOr(false))
  }

  /** `paths` is added, empty, when the document has none. */
  function WithPaths(cfg: map<GlobalKey, Yaml>): map<GlobalKey, Yaml> {
    if Paths in cfg then cfg else cfg[Paths := YMapping(map[])]
  }

  /** `config["paths"][pathName] = path`, which fails when `paths` is not a mapping. */
  function PutPath(cfg: map<GlobalKey, Yaml>, pathName: string, path: map<PathKey, Yaml>): Result<map<GlobalKey, Yaml>, ConfigError>
    requires Paths in cfg
  {
    if cfg[Paths].YMapping? then Ok(cfg[Paths := YMapping(cfg[Paths].m[pathName := YPath(path)])])
    else Err(PathsNotMapping)
  }

  function PiDocument(base: map<GlobalKey, Yaml>, resolution: string, fps: int, bitrate: int)
    : Result<map<GlobalKey, Yaml>, ConfigError>
  {
    var dims := SplitPair(resolution, 'x');
    if dims.None? then Err(BadResolution(resolution))
    else PiSizedDocument(base, dims.value.0, dims.value.1, ParseInt(dims.value.0), ParseInt(dims.value.1), fps, bitrate)
  }

  /** The Pi camera document once the resolution has split into `width` and `height`, whose `int(...)` are `w` and `h`. */
  function PiSizedDocument(base: map<GlobalKey, Yaml>, width: string, height: string, w: Option<int>, h: Option<int>,
                           fps: int, bitrate: int): Result<map<GlobalKey, Yaml>, ConfigError>
  {
    var cfg := WithPaths(base[Api := YBool(true)][ApiAddress := YText(API_ADDRESS)][AuthMethod := YText("internal")]);
    var path := PiPath(width, height, w, h, fps, bitrate);
    if path.Err? then Err(path.error) else PutPath(cfg, PI_PATH_NAME, path.value)
  }

  function UsbDocument(base: map<GlobalKey, Yaml>, c: MtxConfig, resolution: string, pathName: string, source: string)
    : Result<map<GlobalKey, Yaml>, ConfigError>
  {
    var cfg := Switches(base, c);
    if SplitPair(resolution, 'x').None? then Err(BadResolution(resolution))
    else PutPath(WithPaths(cfg), pathName, UsbPath(c, source))
  }

  /** The document `_generate_config` writes for the settings `c` over the default document `base`. */
  function Document(c: MtxConfig, base: map<GlobalKey, Yaml>): Result<map<GlobalKey, Yaml>, ConfigError> {
    var resolution := c.resolution.GetOr("1280x720");
    match CameraTypeOf(c)
    case None => Err(UnknownCameraType(c.cameraType.GetOr("usb")))
    case Some(PiCamera) => PiDocument(base, resolution, c.fps.GetOr(30), c.bitrate.GetOr(2000))
    case Some(Usb) => UsbDocument(base, c, resolution, PathName(Usb, c), UsbSource(c, resolution, PathName(Usb, c)))
  }

  // ---------------------------------------------------------------- what the document holds

  /** The Pi camera path holds only the settings that differ from MediaMTX's defaults. */
  lemma PiPathMeetsSpec(width: string, height: string, w: Option<int>, h: Option<int>, fps: int, bitrate: int)
    ensures PiPath(width, height, w, h, fps, bitrate).Err? <==> DimensionsRejected(width, height, w, h)
    ensures PiPath(width, height, w, h, fps, bitrate).Err? ==>
              PiPath(width, height, w, h, fps, bitrate).error == BadDimension(if w.None? then width else height)
    ensures PiPath(width, height, w, h, fps, bitrate).Ok? ==>
              PiPathSpec(PiPath(width, height, w, h, fps, bitrate).value, width, height, w, h, fps, bitrate)
  {
    if !DimensionsRejected(width, height, w, h) {
      var custom := width != "1920" || height != "1080";
      var p0 := map[Source := YText("rpiCamera")];
      var p1 := if custom then p0[RpiCameraWidth := YInt(w.value)][RpiCameraHeight := YInt(h.value)] else p0;
      assert p1.Keys <= {Source, RpiCameraWidth, RpiCameraHeight} && p1[Source] == YText("rpiCamera");
      assert (RpiCameraWidth in p1 <==> custom) && (RpiCameraHeight in p1 <==> custom);
    }
  }

  /** The USB path: the on-demand ffmpeg source, credentials only when wanted, recording only when enabled. */
  lemma UsbPathMeetsSpec(c: MtxConfig, source: string)
    ensures UsbPathSpec(UsbPath(c, source), c, source)
  {
    var p0 := UsbPathBase(c, source);
    assert p0.Keys == {SourceOnDemand, SourceOnDemandStartTimeout, SourceOnDemandCloseAfter, Source};
    UsbPathSource(c, source, p0);
    UsbPathCredentials(c, p0);
    UsbPathRecording(c, WithCredentials(p0, c));
  }

  lemma UsbPathSource(c: MtxConfig, source: string, p0: map<PathKey, Yaml>)
    requires p0 == UsbPathBase(c, source)
    requires p0.Keys == {SourceOnDemand, SourceOnDemandStartTimeout, SourceOnDemandCloseAfter, Source}
    ensures UsbSourceSpec(WithRecording(WithCredentials(p0, c), c), c, source)
  {
    var p1 := WithCredentials(p0, c);
    assert p1.Keys <= p0.Keys + {ReadUser, ReadPass, PublishUser, PublishPass};
    assert p1[SourceOnDemand] == p0[SourceOnDemand] && p1[Source] == p0[Source];
    assert p1[SourceOnDemandStartTimeout] == p0[SourceOnDemandStartTimeout];
    assert p1[SourceOnDemandCloseAfter] == p0[SourceOnDemandCloseAfter];
  }

  lemma UsbPathCredentials(c: MtxConfig, p0: map<PathKey, Yaml>)
    requires p0.Keys == {SourceOnDemand, SourceOnDemandStartTimeout, SourceOnDemandCloseAfter, Source}
    ensures CredentialsSpec(WithRecording(WithCredentials(p0, c), c), c)
  {
  }

  lemma UsbPathRecording(c: MtxConfig, p1: map<PathKey, Yaml>)
    requires Record !in p1 && RecordPath !in p1 && RecordFormat !in p1
    ensures RecordingSpec(WithRecording(p1, c), c)
  {
  }

  /** A protocol switch keeps every other key of the default document. */
  lemma SwitchKeeps(base: map<GlobalKey, Yaml>, cfg: map<GlobalKey, Yaml>, written: set<GlobalKey>, k: GlobalKey, enabled: bool)
    requires KeepsOthers(base, cfg, written) && k !in written
    ensures KeepsOthers(base, Switch(cfg, k, enabled), written + SwitchKey(base, k, enabled))
  {
  }

  /** A protocol switch, once written, is the negated setting; no other key changes. */
  lemma SwitchWrites(cfg: map<GlobalKey, Yaml>, k: GlobalKey, enabled: bool)
    ensures k in Switch(cfg, k, enabled) ==> Switch(cfg, k, enabled)[k] == YBool(!enabled)
    ensures forall j :: j != k ==> (j in Switch(cfg, k, enabled) <==> j in cfg)
    ensures forall j :: j in cfg && j != k ==> Switch(cfg, k, enabled)[j] == cfg[j]
  {
  }

  /** The USB branch writes the API and exactly the switches `SwitchKeys` names; nothing else changes. */
  lemma SwitchesKeepOthers(base: map<GlobalKey, Yaml>, c: MtxConfig)
    ensures KeepsOthers(base, Switches(base, c), SwitchKeys(base, c))
  {
    var cfg0 := base[Api := YBool(true)][ApiAddress := YText(API_ADDRESS)][RtspDisable := YBool(!c.rtspEnabled.GetOr(true))];
    var w0 := {Api, ApiAddress, RtspDisable};
    assert KeepsOthers(base, cfg0, w0);
    var hls, webrtc, rtmp := c.hlsEnabled.GetOr(true), c.webrtcEnabled.GetOr(true), c.rtmpEnabled.GetOr(false);
    SwitchKeeps(base, cfg0, w0, HlsDisable, hls);
    var cfg1 := Switch(cfg0, HlsDisable, hls);
    var w1 := w0 + SwitchKey(base, HlsDisable, hls);
    SwitchKeeps(base, cfg1, w1, WebrtcDisable, webrtc);
    var cfg2 := Switch(cfg1, WebrtcDisable, webrtc);
    var w2 := w1 + SwitchKey(base, WebrtcDisable, webrtc);
    SwitchKeeps(base, cfg2, w2, RtmpDisable, rtmp);
  }

  /** After the USB branch's writes the API is on and every protocol switch present is the negated setting. */
  lemma SwitchesMeetSpec(base: map<GlobalKey, Yaml>, c: MtxConfig)
    ensures ApiOn(Switches(base, c)) && SwitchesSet(Switches(base, c), c)
  {
    var cfg0 := base[Api := YBool(true)][ApiAddress := YText(API_ADDRESS)][RtspDisable := YBool(!c.rtspEnabled.GetOr(true))];
    assert ApiOn(cfg0) && RtspDisable in cfg0 && cfg0[RtspDisable] == YBool(!c.rtspEnabled.GetOr(true));
    var hls, webrtc, rtmp := c.hlsEnabled.GetOr(true), c.webrtcEnabled.GetOr(true), c.rtmpEnabled.GetOr(false);
    SwitchWrites(cfg0, HlsDisable, hls);
    var cfg1 := Switch(cfg0, HlsDisable, hls);
    SwitchWrites(cfg1, WebrtcDisable, webrtc);
    var cfg2 := Switch(cfg1, WebrtcDisable, webrtc);
    SwitchWrites(cfg2, RtmpDisable, rtmp);
  }

  /** Adding the empty `paths` keeps every other key, and `paths` is then the default document's. */
  lemma WithPathsKeeps(base: map<GlobalKey, Yaml>, cfg: map<GlobalKey, Yaml>, written: set<GlobalKey>)
    requires KeepsOthers(base, cfg, written) && Paths !in written
    ensures KeepsOthers(base, WithPaths(cfg), written + {Paths})
    ensures Paths in WithPaths(cfg) && WithPaths(cfg)[Paths] == PathsOf(base)
    ensures forall k :: k in cfg && k != Paths ==> k in WithPaths(cfg) && WithPaths(cfg)[k] == cfg[k]
  {
  }

  /** Writing the path keeps every other key and every other path, and fails exactly when `paths` is not a mapping. */
  lemma PutPathKeeps(base: map<GlobalKey, Yaml>, cfg: map<GlobalKey, Yaml>, written: set<GlobalKey>,
                     pathName: string, path: map<PathKey, Yaml>)
    requires KeepsOthers(base, cfg, written) && Paths in written && Paths in cfg && cfg[Paths] == PathsOf(base)
    ensures PutPath(cfg, pathName, path).Err? <==> !PathsOf(base).YMapping?
    ensures PutPath(cfg, pathName, path).Err? ==> PutPath(cfg, pathName, path).error == PathsNotMapping
    ensures PutPath(cfg, pathName, path).Ok? ==>
              var doc := PutPath(cfg, pathName, path).value;
              && KeepsOthers(base, doc, written)
              && PathsHold(base, doc, pathName) && PathAt(doc, pathName) == path
              && forall k :: k in cfg && k != Paths ==> doc[k] == cfg[k]
  {
  }

  /** The Pi camera branch ends as `PiOutcome` describes. */
  lemma PiDocumentOutcome(base: map<GlobalKey, Yaml>, resolution: string, fps: int, bitrate: int)
    ensures PiOutcome(base, resolution, fps, bitrate, PiDocument(base, resolution, fps, bitrate))
  {
    var dims := SplitPair(resolution, 'x');
    if dims.Some? {
      var (width, height) := dims.value;
      PiSizedDocumentOutcome(base, width, height, ParseInt(width), ParseInt(height), fps, bitrate);
    }
  }

  /** The Pi camera branch after the resolution split ends as `PiSizedOutcome` describes. */
  lemma PiSizedDocumentOutcome(base: map<GlobalKey, Yaml>, width: string, height: string, w: Option<int>, h: Option<int>,
                               fps: int, bitrate: int)
    ensures PiSizedOutcome(base, width, height, w, h, fps, bitrate, PiSizedDocument(base, width, height, w, h, fps, bitrate))
  {
    var cfg0 := base[Api := YBool(true)][ApiAddress := YText(API_ADDRESS)][AuthMethod := YText("internal")];
    assert KeepsOthers(base, cfg0, {Api, ApiAddress, AuthMethod}) && ApiOn(cfg0);
    WithPathsKeeps(base, cfg0, {Api, ApiAddress, AuthMethod});
    PiPathMeetsSpec(width, height, w, h, fps, bitrate);
    var path := PiPath(width, height, w, h, fps, bitrate);
    if path.Ok? {
      PutPathKeeps(base, WithPaths(cfg0), {Api, ApiAddress, AuthMethod, Paths}, PI_PATH_NAME, path.value);
    }
  }

  /** The USB branch ends as `UsbOutcome` describes. */
  lemma UsbDocumentOutcome(base: map<GlobalKey, Yaml>, c: MtxConfig, resolution: string, pathName: string, source: string)
    ensures UsbOutcome(base, c, resolution, pathName, source, UsbDocument(base, c, resolution, pathName, source))
  {
    var cfg := Switches(base, c);
    SwitchesKeepOthers(base, c);
    SwitchesMeetSpec(base, c);
    WithPathsKeeps(base, cfg, SwitchKeys(base, c));
    UsbPathMeetsSpec(c, source);
    PutPathKeeps(base, WithPaths(cfg), SwitchKeys(base, c) + {Paths}, pathName, UsbPath(c, source));
  }

  /**
   * What `_generate_config` does with the settings `c` from the default document `base`:
   * an unknown camera type fails, otherwise the branch for the camera type decides.
   */
  predicate Generated(c: MtxConfig, base: map<GlobalKey, Yaml>, r: Result<map<GlobalKey, Yaml>, ConfigError>) {
    var resolution := c.resolution.GetOr("1280x720");
    && (CameraTypeOf(c).None? ==> r == Err(UnknownCameraType(c.cameraType.GetOr("usb"))))
    && (CameraTypeOf(c) == Some(PiCamera) ==> PiOutcome(base, resolution, c.fps.GetOr(30), c.bitrate.GetOr(2000), r))
    && (CameraTypeOf(c) == Some(Usb) ==>
          UsbOutcome(base, c, resolution, PathName(Usb, c), UsbSource(c, resolution, PathName(Usb, c)), r))
  }

  /** The document meets everything listed above for its camera type. */
  lemma DocumentGenerated(c: MtxConfig, base: map<GlobalKey, Yaml>)
    ensures Generated(c, base, Document(c, base))
  {
    var resolution := c.resolution.GetOr("1280x720");
    match CameraTypeOf(c)
    case None =>
    case Some(PiCamera) => PiDocumentOutcome(base, resolution, c.fps.GetOr(30), c.bitrate.GetOr(2000));
    case Some(Usb) =>
      UsbDocumentOutcome(base, c, resolution, PathName(Usb, c), UsbSource(c, resolution, PathName(Usb, c)));
  }

  /**
   * `_generate_config()`: the dict writes of the method, over the default document `base`
   * (`{}` when there is no default file).
   */
  method GenerateConfig(c: MtxConfig, base: map<GlobalKey, Yaml>) returns (r: Result<map<GlobalKey, Yaml>, ConfigError>)
    ensures r == Document(c, base)
  {
    var t := CameraTypeOf(c);
    if t.None? {
      return Err(UnknownCameraType(c.cameraType.GetOr("usb")));
    }
    var resolution := c.resolution.GetOr("1280x720");
    var pathName := PathName(t.value, c);
    if t.value == PiCamera {
      r := PiConfig(base, resolution, c.fps.GetOr(30), c.bitrate.GetOr(2000));
    } else {
      r := UsbConfig(base, c, resolution, pathName);
    }
  }

  /** The Pi camera branch of `_generate_config()`. */
  method PiConfig(base: map<GlobalKey, Yaml>, resolution: string, fps: int, bitrate: int)
    returns (r: Result<map<GlobalKey, Yaml>, ConfigError>)
    ensures r == PiDocument(base, resolution, fps, bitrate)
  {
    var cfg := base;
    cfg := cfg[Api := YBool(true)];
    cfg := cfg[ApiAddress := YText(API_ADDRESS)];
    cfg := cfg[AuthMethod := YText("internal")];
    if Paths !in cfg {
      cfg := cfg[Paths := YMapping(map[])];
    }
    var dims := SplitPair(resolution, 'x');
    if dims.None? {
      return Err(BadResolution(resolution));
    }
    var (width, height) := dims.value;
    var path := BuildPiPath(width, height, fps, bitrate);
    if path.Err? {
      return Err(path.error);
    }
    if !cfg[Paths].YMapping? {
      return Err(PathsNotMapping);
    }
    cfg := cfg[Paths := YMapping(cfg[Paths].m[PI_PATH_NAME := YPath(path.value)])];
    return Ok(cfg);
  }

  /** The `rpiCamera` path of the Pi camera branch, which fails when a custom size is not numeric. */
  method BuildPiPath(width: string, height: string, fps: int, bitrate: int)
    returns (r: Result<map<PathKey, Yaml>, ConfigError>)
    ensures r == PiPath(width, height, ParseInt(width), ParseInt(height), fps, bitrate)
  {
    var path: map<PathKey, Yaml> := map[Source := YText("rpiCamera")];
    if width != "1920" || height != "1080" {
      var w := ParseInt(width);
      if w.None? {
        return Err(BadDimension(width));
      }
      var h := ParseInt(height);
      if h.None? {
        return Err(BadDimension(height));
      }
      path := path[RpiCameraWidth := YInt(w.value)];
      path := path[RpiCameraHeight := YInt(h.value)];
    }
    if fps != 30 {
      path := path[RpiCameraFPS := YInt(fps)];
    }
    if bitrate != 1000 {
      path := path[RpiCameraBitrate := YInt(bitrate * 1000)];
    }
    return Ok(path);
  }

  /** The USB camera branch of `_generate_config()`; `bitrate_bps` is computed there but never used. */
  method UsbConfig(base: map<GlobalKey, Yaml>, c: MtxConfig, resolution: string, pathName: string)
    returns (r: Result<map<GlobalKey, Yaml>, ConfigError>)
    ensures r == UsbDocument(base, c, resolution, pathName, UsbSource(c, resolution, pathName))
  {
    var cfg := WriteSwitches(base, c);
    if SplitPair(resolution, 'x').None? {
      return Err(BadResolution(resolution));
    }
    if Paths !in cfg {
      cfg := cfg[Paths := YMapping(map[])];
    }
    var path := BuildUsbPath(c, resolution, pathName);
    if !cfg[Paths].YMapping? {
      return Err(PathsNotMapping);
    }
    cfg := cfg[Paths := YMapping(cfg[Paths].m[pathName := YPath(path)])];
    return Ok(cfg);
  }

  /** The API and protocol writes of the USB camera branch. */
  method WriteSwitches(base: map<GlobalKey, Yaml>, c: MtxConfig) returns (cfg: map<GlobalKey, Yaml>)
    ensures cfg == Switches(base, c)
  {
    cfg := base;
    cfg := cfg[Api := YBool(true)];
    cfg := cfg[ApiAddress := YText(API_ADDRESS)];
    cfg := cfg[RtspDisable := YBool(!c.rtspEnabled.GetOr(true))];
    if HlsDisable in cfg || c.hlsEnabled.GetOr(true) {
      cfg := cfg[HlsDisable := YBool(!c.hlsEnabled.GetOr(true))];
    }
    if WebrtcDisable in cfg || c.webrtcEnabled.GetOr(true) {
      cfg := cfg[WebrtcDisable := YBool(!c.webrtcEnabled.GetOr(true))];
    }
    if RtmpDisable in cfg || c.rtmpEnabled.GetOr(false) {
      cfg := cfg[RtmpDisable := YBool(!c.rtmpEnabled.GetOr(false))];
    }
  }

  /** The on-demand ffmpeg path of the USB camera branch. */
  method BuildUsbPath(c: MtxConfig, resolution: string, pathName: string) returns (path: map<PathKey, Yaml>)
    ensures path == UsbPath(c, UsbSource(c, resolution, pathName))
  {
    path := map[SourceOnDemand := YBool(c.runOnDemand.GetOr(true)),
                SourceOnDemandStartTimeout := YText(c.startTimeout.GetOr("10s")),
                SourceOnDemandCloseAfter := YText(c.closeAfter.GetOr("10s"))];
    path := path[Source := YText(FfmpegSource(resolution, c.fps.GetOr(30), c.device.GetOr("/dev/video0"),
                                              c.bitrate.GetOr(2000), pathName))];
    if AuthWanted(c) {
      path := path[ReadUser := YText(c.username.value)];
      path := path[ReadPass := YText(c.password.value)];
      path := path[PublishUser := YText(c.username.value)];
      path := path[PublishPass := YText(c.password.value)];
    }
    if c.recordEnabled.GetOr(false) {
      path := path[Record := YBool(true)];
      path := path[RecordPath := YText(RecordPathOf(c))];
      path := path[RecordFormat := YText(c.recordFormat.GetOr("mp4"))];
    }
  }

  // ================================================================ the manager

  /** What launching the binary led to, two seconds later. */
  datatype MtxLaunch =
    | LaunchNotFound                        // Popen raised FileNotFoundError
    | LaunchExited(code: int, output: string) // the process had already exited; its merged output
    | LaunchAlive(pid: nat)

  datatype MtxStartReply =
    | MtxStarted(pid: nat, cameraType: Option<string>, pathName: string, urls: map<UrlKind, string>)
    | MtxStartError(message: string)
    | MtxConfigError(error: ConfigError) // the exception `_generate_config` raised, reported as its text

  datatype MtxStopReply = MtxStopped | MtxStopError(message: string)

  datatype MtxStatus = MtxStatus(
    running: bool, pid: Option<nat>, cameraType: Option<string>, pathName: Option<string>,
    config: Option<MtxConfig>, urls: Option<map<UrlKind, string>>)

  const ALREADY_RUNNING := "MediaMTX already running"
  const NOT_RUNNING := "MediaMTX not running"
  const BINARY_NOT_FOUND := "MediaMTX binary not found at /usr/local/bin/mediamtx"
  const BINARY_MISSING := "MediaMTX binary not found at /usr/local/bin/mediamtx. Please run deployment script to install it."

  /** The error for a server that exited at once, with the first 500 characters of its output. */
  function ExitMessage(code: int, output: string): (m: string)
    ensures StartsWith(m, "MediaMTX failed to start (exit code ")
  {
    "MediaMTX failed to start (exit code " + IntToString(code) + "): " + Take(output, 500)
  }

  class MediaMtxManager {
    var process: Option<nat>
    var running: bool
    var config: MtxConfig
    /** The last document written to `mediamtx.yml`. */
    var configFile: Option<map<GlobalKey, Yaml>>

    /** A process is held exactly while running, and a running server's settings name a camera type. */
    predicate Valid()
      reads this
    {
      (running <==> process.Some?) && (running ==> CameraTypeOf(config).Some?)
    }

    constructor()
      ensures Valid() && !running && process.None? && config == EmptyConfig && configFile.None?
    {
      process := None;
      running := false;
      config := EmptyConfig;
      configFile := None;
    }

    /**
     * `start(config)`: store the settings, write the document generated from the default
     * document `base`, launch the binary and see whether it stayed up.
     */
    method Start(c: MtxConfig, binaryExists: bool, base: map<GlobalKey, Yaml>, launch: MtxLaunch)
      returns (reply: MtxStartReply)
      requires Valid()
      modifies this
      ensures Valid()
      ensures old(running) ==> reply == MtxStartError(ALREADY_RUNNING) && unchanged(this)
      ensures !old(running) && !binaryExists ==> reply == MtxStartError(BINARY_MISSING) && unchanged(this)
      ensures !old(running) && binaryExists ==> config == c
      ensures !old(running) && binaryExists && reply.MtxConfigError? ==>
                && Document(c, base) == Err(reply.error)
                && !running && process.None? && configFile == old(configFile)
      ensures !old(running) && binaryExists && !reply.MtxConfigError? ==>
                && Document(c, base).Ok? && configFile == Some(Document(c, base).value)
                && (launch.LaunchNotFound? ==> reply == MtxStartError(BINARY_NOT_FOUND) && !running)
                && (launch.LaunchExited? ==> reply == MtxStartError(ExitMessage(launch.code, launch.output)) && !running)
                && (launch.LaunchAlive? ==>
                      var pathName := PathName(CameraTypeOf(c).value, c);
                      && reply == MtxStarted(launch.pid, c.cameraType, pathName, StreamUrls(c, pathName))
                      && running && process == Some(launch.pid))
    {
      if running {
        return MtxStartError(ALREADY_RUNNING);
      }
      if !binaryExists {
        return MtxStartError(BINARY_MISSING);
      }
      config := c;
      var t := CameraTypeOf(c);
      if t.None? {
        return MtxConfigError(UnknownCameraType(c.cameraType.GetOr("usb")));
      }
      var pathName := PathName(t.value, c);
      var doc := GenerateConfig(c, base);
      if doc.Err? {
        return MtxConfigError(doc.error);
      }
      configFile := Some(doc.value);
      reply := Launch(pathName, launch);
    }

    /** Launch the binary on the written document and see whether it stayed up. */
    method Launch(pathName: string, launch: MtxLaunch) returns (reply: MtxStartReply)
      requires Valid() && !running && CameraTypeOf(config).Some?
      modifies this`process, this`running
      ensures Valid()
      ensures launch.LaunchNotFound? ==> reply == MtxStartError(BINARY_NOT_FOUND) && !running
      ensures launch.LaunchExited? ==> reply == MtxStartError(ExitMessage(launch.code, launch.output)) && !running
      ensures launch.LaunchAlive? ==>
                && reply == MtxStarted(launch.pid, config.cameraType, pathName, StreamUrls(config, pathName))
                && running && process == Some(launch.pid)
    {
      match launch
      case LaunchNotFound =>
        return MtxStartError(BINARY_NOT_FOUND);
      case LaunchExited(code, output) =>
        process := None;
        return MtxStartError(ExitMessage(code, output));
      case LaunchAlive(pid) =>
        process := Some(pid);
        running := true;
        return MtxStarted(pid, config.cameraType, pathName, StreamUrls(config, pathName));
    }

    /** `stop()`: terminate the server; refused unless running with a process. */
    method Stop() returns (reply: MtxStopReply)
      requires Valid()
      modifies this
      ensures Valid()
      ensures !old(running) || old(process).None? ==> reply == MtxStopError(NOT_RUNNING) && unchanged(this)
      ensures old(running) && old(process).Some? ==>
                reply == MtxStopped && !running && process.None? && config == old(config) && configFile == old(configFile)
    {
      if !running || process.None? {
        return MtxStopError(NOT_RUNNING);
      }
      process := None;
      running := false;
      return MtxStopped;
    }

    /** One round of `_watchdog`: a server found dead is marked stopped; it is not restarted. */
    method WatchdogRound(died: bool)
      requires Valid()
      modifies this`running, this`process
      ensures Valid()
      ensures old(running) && died ==> !running && process.None?
      ensures !(old(running) && died) ==> running == old(running) && process == old(process)
    {
      if running && process.Some? && died {
        running := false;
        process := None;
      }
    }

    /** `get_status()`; `alive` is whether the process has not exited. */
    function Status(alive: bool): (s: MtxStatus)
      requires Valid()
      reads this
      ensures s.running <==> running && alive
      ensures s.pid == process
      ensures s.running ==> && s.cameraType == config.cameraType && s.config == Some(config)
                            && s.pathName == Some(PathName(CameraTypeOf(config).value, config))
                            && s.urls == Some(StreamUrls(config, s.pathName.value))
      ensures !s.running ==> s.cameraType.None? && s.pathName.None? && s.config.None? && s.urls.None?
    {
      var isRunning := running && process.Some? && alive;
      if isRunning then
        var pathName := PathName(CameraTypeOf(config).value, config);
        MtxStatus(true, process, config.cameraType, Some(pathName), Some(config), Some(StreamUrls(config, pathName)))
      else
        MtxStatus(false, process, None, None, None, None)
    }
  }
}
