# A verified model of a companion-computer backend

This project models the core of a drone companion-computer backend. The backend runs beside a flight controller. It routes MAVLink telemetry from the serial link to a set of UDP/TCP destinations and finds the USB and Raspberry Pi cameras. It also builds and supervises GStreamer video pipelines, configures a MediaMTX streaming server and manages a ZeroTier, Tailscale or WireGuard VPN. Finally, it inspects network interfaces and cellular modems, samples system statistics and pushes them to WebSocket clients.

Each source file becomes one module:

| module | file | models |
|---|---|---|
| `MavlinkRouter` | `mavlink_router.dfy` | the forwarding router, as classes |
| `CameraDetector` | `camera_detector.dfy` | camera discovery |
| `NetworkManager` | `network_manager.dfy` | interface and modem inspection |
| `VideoStreamer` | `video_streamer.dfy` | the GStreamer pipeline builder and its supervisor |
| `MediaMtxManager` | `mediamtx_manager.dfy` | the MediaMTX configuration generator and supervisor |
| `VpnManager` | `vpn_manager.dfy` | the VPN provider state |
| `WebSocket` | `websocket.dfy` | the connection set and message dispatch |
| `SystemMonitor` | `system_monitor.dfy` | the monitor task and the process list |

Shared helper modules:

| module | file | holds |
|---|---|---|
| `Wrappers` | `wrappers.dfy` | `Option` and `Result` |
| `Strings` | `strings.dfy` | the string scans that stand in for the source's regular expressions and `str` methods |
| `Sorting` | `sorting.dfy` | a stable descending sort by key |
| `Commands` | `commands.dfy` | a subprocess runner, given as a parameter |

The source mutates objects in place: the router's destination list and counters, each destination's connection flags, the supervisors' `running`/`process`/`retry_count` fields, the VPN provider state, the WebSocket connection set and the monitor task. These become classes with `modifies` clauses. Each method's `ensures` states the whole new state.

Source loops that build lists become methods with loop invariants, proved equal to a specification function:

- the `v4l2-ctl` line scanner;
- the `ip addr` collector;
- the per-destination forwarding loop;
- the broadcast loop;
- the process collector.

Parsers, classifiers and configuration builders are pure in the source. They become functions whose results are pinned down by their own contracts and by lemmas. The lemmas cover round trips, leftmost-match properties, permutations, order preservation and "nothing else changes".

Everything the source leaves to the outside world is an input to the model: a subprocess's exit code and output, whether a socket send succeeds, whether a process launch survives, what `json.loads` made of a text and what `psutil` reported.

## Model

| member | source | states |
|---|---|---|
| MavlinkRouter.ArmedIffTopBit | backend/app/services/mavlink_router.py:509-511 | the armed flag (`base_mode & 128`) is set exactly when the 8-bit base mode is at least 128 |
| MavlinkRouter.ApplyMessage | backend/app/services/mavlink_router.py:482-515 | a message changes only the telemetry fields its type reports, and each of those then holds a value; HEARTBEAT sets armed from bit 7 of base_mode and mode from custom_mode; GPS_RAW_INT sets fix type and satellite count; any other type changes nothing |
| MavlinkRouter.UnreportedFieldPersists | backend/app/services/mavlink_router.py:482-515 | a field that no message in a stream reports keeps its earlier value |
| MavlinkRouter.LastReportWins | backend/app/services/mavlink_router.py:482-515 | after a stream of messages, a field holds the value from the last message that reported it |
| MavlinkRouter.AfterConnect | backend/app/services/mavlink_router.py:24-48 | for udp/tcp the destination ends up connected exactly when the socket calls succeed; an unknown protocol leaves the flags unchanged; a connect that succeeds holds a socket |
| MavlinkRouter.AfterSend | backend/app/services/mavlink_router.py:50-64 | a send never changes whether a socket is held; without both connected and socket nothing changes; `connected` is cleared exactly when a known-protocol socket call raises |
| MavlinkRouter.AfterRoute | backend/app/services/mavlink_router.py:425-431 | a destination that accepts the message is left unchanged; after a failed send its connected flag is the result of the reconnect |
| MavlinkRouter.Revive | backend/app/services/mavlink_router.py:231-233 | the reconnect pass in start/_reconnect leaves a connected destination alone and reconnects one that is not |
| MavlinkRouter.Delivered | backend/app/services/mavlink_router.py:425-429 | the number of destinations that accept a message is at most the number of destinations |
| MavlinkRouter.AllDeliveredWhenAllAccept | backend/app/services/mavlink_router.py:425-427 | if every destination is connected and its socket accepts the bytes, all of them count as forwarded |
| MavlinkRouter.NoneDeliveredWhenAllRefuse | backend/app/services/mavlink_router.py:425-429 | if every destination refuses, none count as forwarded |
| MavlinkRouter.OneFailureIsIsolated | backend/app/services/mavlink_router.py:425-431 | one refusing destination lowers the forwarded count by exactly one, and the destinations after it are still served |
| MavlinkRouter.TelemetryDestination.constructor | backend/app/services/mavlink_router.py:15-22 | keeps name, host and port, lower-cases the protocol, and starts with no socket and not connected |
| MavlinkRouter.TelemetryDestination.Connect | backend/app/services/mavlink_router.py:24-48 | returns true exactly for udp/tcp when the socket calls succeed; the new flags are `AfterConnect` of the old ones |
| MavlinkRouter.TelemetryDestination.Send | backend/app/services/mavlink_router.py:50-64 | returns true exactly when the destination was connected, held a socket and the socket call did not raise; the new flags are `AfterSend` of the old ones |
| MavlinkRouter.TelemetryDestination.Forward | backend/app/services/mavlink_router.py:425-431 | one routed message to one destination: the result of the send, and the flags after sending and, on failure, reconnecting |
| MavlinkRouter.TelemetryDestination.Recv | backend/app/services/mavlink_router.py:66-84 | gives no data and changes nothing without connection and socket; a UDP datagram or non-empty TCP read is returned; an empty TCP read or no pending data gives none; a raising call clears `connected`; the socket is kept in every case |
| MavlinkRouter.TelemetryDestination.Close | backend/app/services/mavlink_router.py:86-91 | afterwards no socket and not connected; closing a closed destination changes nothing |
| MavlinkRouter.FindName | backend/app/services/mavlink_router.py:149-151 | the first destination with the given name, or none exactly when no destination has it |
| MavlinkRouter.FanOut | backend/app/services/mavlink_router.py:425-431 | every destination is sent the message in list order; forwarded is the number that accept it and forwarded + errors is the number of destinations; each destination's flags are `AfterRoute` of its old flags |
| MavlinkRouter.ForwardAt | backend/app/services/mavlink_router.py:426-431 | one step of the fan-out changes only the flags of destination i |
| MavlinkRouter.NextRetryCount | backend/app/services/mavlink_router.py:386-403 | a reconnection is tried only while the counter is below max_retries (otherwise the router stops); the counter never exceeds max_retries |
| MavlinkRouter.GivesUpAfterMaxRetries | backend/app/services/mavlink_router.py:386-403 | starting from count, n failed reconnections leave the counter at count + n, and the router gives up on the timeout after that exactly when count + n is max_retries |
| MavlinkRouter.MAVLinkRouter.constructor | backend/app/services/mavlink_router.py:97-132 | no serial port, baud 57600, no connection, no destinations, not running, no heartbeat, auto-retry on, zero counters, empty telemetry |
| MavlinkRouter.MAVLinkRouter.Configure | backend/app/services/mavlink_router.py:134-140 | the serial port defaults to /dev/ttyACM0 and the baud rate to 57600 |
| MavlinkRouter.MAVLinkRouter.AddDestination | backend/app/services/mavlink_router.py:145-166 | a duplicate name is an error and the list is unchanged; a failed connect is an error and the list is unchanged; otherwise exactly one connected destination is appended at the end |
| MavlinkRouter.MAVLinkRouter.RemoveDestination | backend/app/services/mavlink_router.py:171-190 | an unknown name gives not-found and nothing changes; otherwise exactly the first entry with that name is removed, the others keep their order, and the removed one is closed |
| MavlinkRouter.MAVLinkRouter.ReviveDestinations | backend/app/services/mavlink_router.py:231-233 | every destination that is not connected is reconnected; connected ones are untouched |
| MavlinkRouter.MAVLinkRouter.Start | backend/app/services/mavlink_router.py:195-251 | already running is an error and changes nothing; no serial port is an error; a link without heartbeat fails with the router stopped and disconnected; otherwise running, heartbeat latched, retry counter 0, last-heartbeat time set (unless a heartbeat was already latched) and destinations revived |
| MavlinkRouter.MAVLinkRouter.Stop | backend/app/services/mavlink_router.py:253-288 | not running is an error and changes nothing (stop is not idempotent); otherwise running and heartbeat_received become false, the link is dropped and every destination is closed; the counters are kept |
| MavlinkRouter.MAVLinkRouter.ParseTelemetry | backend/app/services/mavlink_router.py:482-515 | the telemetry becomes `ApplyMessage` of the old telemetry |
| MavlinkRouter.MAVLinkRouter.RouteMessage | backend/app/services/mavlink_router.py:412-431 | messages_received grows by one; forwarded grows by the number of accepting destinations and errors by the rest; a HEARTBEAT stamps the last-heartbeat time; the telemetry is updated and each destination's flags are `AfterRoute` of its old ones |
| MavlinkRouter.MAVLinkRouter.Reconnect | backend/app/services/mavlink_router.py:294-366 | succeeds exactly when a heartbeat arrives; then the link is up, the heartbeat time is stamped and destinations are revived; otherwise there is no link and nothing else changes |
| MavlinkRouter.MAVLinkRouter.OnHeartbeatCheck | backend/app/services/mavlink_router.py:379-403 | the check acts only with auto-retry on, a heartbeat seen and the timeout passed, and otherwise changes nothing; below max_retries the counter goes up, a reconnection is made, the link is held exactly when it saw a heartbeat, and then the heartbeat latch, last-heartbeat time and every destination's link follow that reconnection and the counter resets to 0; at max_retries the router stops and the link, heartbeat latch, statistics and destinations are left as they were |
| MavlinkRouter.MAVLinkRouter.OnRoutingError | backend/app/services/mavlink_router.py:442-455 | an exception adds one to errors; without a retry (auto-retry off or the counter at max_retries) nothing else changes; with one the counter goes up, the link is held exactly when the reconnection saw a heartbeat, and the heartbeat latch, last-heartbeat time and destination links follow that reconnection |
| MavlinkRouter.MAVLinkRouter.Status | backend/app/services/mavlink_router.py:517-540 | the snapshot reports the running and heartbeat flags, whether a link is held, the serial port, baud rate, statistics, telemetry, retry counter, retry limit and auto-retry flag as held, and one row per destination in order with its name, host, port, protocol and connected flag; destination names are distinct |
| CameraDetector.CameraName | backend/app/services/camera_detector.py:58 | a camera name taken from a name line never ends with a colon |
| CameraDetector.DeviceEntry | backend/app/services/camera_detector.py:59-83 | a line adds a camera exactly when it is an indented /dev/video line, the current name is not an internal Pi device, and the capabilities mention "video capture" (ignoring case); that camera is the stripped device path of type usb, named after the current name or "Unknown USB Camera", with the device's formats |
| CameraDetector.UsbCameras | backend/app/services/camera_detector.py:52-83 | a listing yields at most one camera per line |
| CameraDetector.UsbCamerasAreCaptures | backend/app/services/camera_detector.py:55-83 | every detected USB camera is a /dev/video node of type usb, has a non-empty name that is not an internal Pi device, reports video capture and carries its own format list |
| CameraDetector.UsbCamerasStep | backend/app/services/camera_detector.py:55-61 | reading one more line updates the current name only on a name line, and adds that line's entry under the name in force before it |
| CameraDetector.InternalDevicesSkipped | backend/app/services/camera_detector.py:63-68 | a device line under the name of a pispbe, rp1-cfe, rpi-hevc, bcm2835 or unicam device adds no camera |
| CameraDetector.UsbCamerasAppend | backend/app/services/camera_detector.py:55-83 | lines without a name line keep the current name, and the cameras of a listing split at any such run are those of the first part then those of the run under the inherited name |
| CameraDetector.CurrentNameAppend | backend/app/services/camera_detector.py:55-61 | lines without a name line leave the current camera name as it was |
| CameraDetector.DetectUsbCameras | backend/app/services/camera_detector.py:33-89 | returns no cameras when v4l2-ctl is missing or listing fails, and otherwise the cameras of the listing, line by line |
| CameraDetector.ProbeDeviceLine | backend/app/services/camera_detector.py:59-83 | the device-line branch of the loop gives that line's entry |
| CameraDetector.SizeAt | backend/app/services/camera_detector.py:168 | a match of `Size: Discrete (\d+)x(\d+)` captures two non-empty digit strings |
| CameraDetector.FindSize | backend/app/services/camera_detector.py:168 | the search finds the leftmost position where the pattern matches, and none exactly when it matches nowhere |
| CameraDetector.SizeOfLine | backend/app/services/camera_detector.py:168-172 | a line contributes a format only in the form digits "x" digits |
| CameraDetector.ParsedSizes | backend/app/services/camera_detector.py:167-172 | a line contributes at most one format |
| CameraDetector.FirstXOfSize | backend/app/services/camera_detector.py:177 | in a parsed size the first "x" is the one right after the width digits |
| CameraDetector.WidthOfSize | backend/app/services/camera_detector.py:177 | the sort key of a parsed size is the integer its width digits denote |
| CameraDetector.CameraFormats | backend/app/services/camera_detector.py:156-188 | the list is never empty and has no duplicates; when something was parsed it holds exactly the parsed sizes, widest first; when the command failed or nothing was parsed it is 1920x1080, 1280x720, 640x480 |
| CameraDetector.GetCameraFormats | backend/app/services/camera_detector.py:156-188 | the loop over the output lines returns `CameraFormats` of the command's result |
| CameraDetector.FirstAvailable | backend/app/services/camera_detector.py:97-101 | the index of the first tool `which` finds, and none only when `which` finds none of them |
| CameraDetector.RpicamPreferred | backend/app/services/camera_detector.py:97 | when rpicam-hello is installed it is chosen over libcamera-hello |
| CameraDetector.FindCameraCommand | backend/app/services/camera_detector.py:96-101 | the loop returns the first installed tool, or none |
| CameraDetector.LazyGroupEnd | backend/app/services/camera_detector.py:117 | the lazy group `(.+?)` ends at the first point within the line where `\s*\[` matches, and at no earlier one; none when the line ends first |
| CameraDetector.CaptureFrom | backend/app/services/camera_detector.py:117 | the greedy `\s*` before the group gives back blanks from the right until the group can close: the rightmost start that closes, and no start to its right closes |
| CameraDetector.PiNameAt | backend/app/services/camera_detector.py:117 | a capture of `\d+\s*:\s*(.+?)\s*\[` is non-empty and within one line |
| CameraDetector.FindPiName | backend/app/services/camera_detector.py:117 | the search finds the leftmost position where the name pattern matches, and none exactly when it matches nowhere |
| CameraDetector.PiCameraName | backend/app/services/camera_detector.py:117-120 | the leftmost capture of the name pattern, or "Raspberry Pi Camera" when it matches nowhere |
| CameraDetector.LazyOverName | backend/app/services/camera_detector.py:117 | over a name without blanks or brackets the lazy group stops at the " [" after it |
| CameraDetector.PiNameAtLayout | backend/app/services/camera_detector.py:117 | a text laid out as digits, " : ", a name and " [" captures that name at its start |
| CameraDetector.PiNameOfListingLine | backend/app/services/camera_detector.py:117-120 | a listing `N : name [...]` whose name has no blanks or brackets names the camera `name` |
| CameraDetector.DetectPiCamera | backend/app/services/camera_detector.py:92-141 | the method finds exactly `PiCameraOf` of the command results |
| CameraDetector.PiCameraOf | backend/app/services/camera_detector.py:92-141 | a Pi camera is reported exactly when a tool is installed and its `--list-cameras` succeeds and mentions "Available cameras"; it is named `PiCameraName` of the listing, its device is the tool, its type picamera, with the four Pi formats |
| CameraDetector.DetectAll | backend/app/services/camera_detector.py:16-30 | the USB cameras come first in detection order, followed by one more camera exactly when a Pi camera is detected, and that camera is the one detected |
| CameraDetector.TestCamera | backend/app/services/camera_detector.py:191-227 | an unknown type is an error; usb succeeds exactly when `v4l2-ctl --all` succeeds; picamera is an error when no tool is installed and otherwise succeeds exactly when `--list-cameras` succeeds; a failed run reports its stderr |
| NetworkManager.InterfaceTypeByPrefix | backend/app/services/network_manager.py:67-80 | a name that starts with one of the nine prefixes (wlan, wlp, eth, enp, wwan, usb, zt, tailscale, wg) gets that prefix's type, whatever order the tests run in |
| NetworkManager.InterfaceTypeUnknown | backend/app/services/network_manager.py:81-82 | a name with none of the prefixes is "unknown" |
| NetworkManager.Addresses | backend/app/services/network_manager.py:38-47 | reading the addresses raises exactly when some inet/inet6 entry has no "local"; otherwise only inet and inet6 addresses are kept, at most one per entry |
| NetworkManager.AddressesAppend | backend/app/services/network_manager.py:38-47 | the addresses of two runs of entries are those of the first then those of the second, and unreadable when either is |
| NetworkManager.AddressesComplete | backend/app/services/network_manager.py:38-47 | every inet/inet6 entry of a readable list has "local" and its address is reported, and every reported address is that of such an entry |
| NetworkManager.InterfaceOf | backend/app/services/network_manager.py:35-58 | the entry carries the interface's name, type by name, state ("unknown" when absent), MAC address, MTU and exactly the addresses `Addresses` reads from its entries |
| NetworkManager.Interfaces | backend/app/services/network_manager.py:29-58 | the listing fails exactly when some interface object cannot be read; otherwise no entry is loopback, every entry is typed by its name and lists only inet/inet6 addresses |
| NetworkManager.InterfacesAppend | backend/app/services/network_manager.py:29-58 | the list for two runs of objects is the list for the first then the list for the second, and fails when either does |
| NetworkManager.InterfacesComplete | backend/app/services/network_manager.py:29-58 | every non-loopback object of a readable list yields its entry, and every entry is that of a readable non-loopback object |
| NetworkManager.InterfacesKeepOrder | backend/app/services/network_manager.py:29-60 | the list has at most one entry per object; with no loopback object it has exactly one per object, in the objects' order, the k-th being the entry of the k-th object |
| NetworkManager.InterfacesInOrder | backend/app/services/network_manager.py:29-60 | with no loopback object the k-th entry is the entry of the k-th object, and there are as many entries as objects |
| NetworkManager.CollectAddresses | backend/app/services/network_manager.py:38-47 | the address loop returns `Addresses` of the entries, stopping at the first one that raises |
| NetworkManager.PrefixUnreadable | backend/app/services/network_manager.py:43-44 | one inet/inet6 entry without "local" makes the address list unreadable |
| NetworkManager.RecordUnreadable | backend/app/services/network_manager.py:31-65 | one unreadable interface object makes `get_interfaces` give [] |
| NetworkManager.GetInterfaces | backend/app/services/network_manager.py:18-65 | gives [] when `ip -j addr show` fails, its output does not decode or an object cannot be read; otherwise the interface list |
| NetworkManager.LineEnd | backend/app/services/network_manager.py:175 | the position of the next line break, or the end of the text, with no line break before it |
| NetworkManager.Clean | backend/app/services/network_manager.py:178-180 | a cleaned value neither starts nor ends with whitespace |
| NetworkManager.FindField | backend/app/services/network_manager.py:175-176 | the search finds the leftmost position where `field:\s*(.+?)(?:\n\|$)` matches, ignoring case, and none exactly when it matches nowhere |
| NetworkManager.ExtractField | backend/app/services/network_manager.py:173-182 | no value when the label `field:` occurs nowhere; a value only when it occurs; the value neither starts nor ends with whitespace |
| NetworkManager.ExtractFieldValue | backend/app/services/network_manager.py:173-182 | a value exactly when the pattern matches somewhere; then the match is the leftmost one, starts at a label, and the value is the rest of that line from its first non-blank, trimmed, stripped of trailing "\|" and trimmed again |
| NetworkManager.ExtractFieldReadsLine | backend/app/services/network_manager.py:173-182 | a first line `field: value` yields exactly the cleaned value |
| NetworkManager.LabelAtStart | backend/app/services/network_manager.py:175 | the label `field:` matches at the start of `field:` followed by anything |
| NetworkManager.BlankThenValue | backend/app/services/network_manager.py:175 | after the label, a single blank is skipped and the value runs to the line break |
| NetworkManager.ModemIdAt | backend/app/services/network_manager.py:119-121 | a match of `/org/freedesktop/ModemManager\d+/Modem/(\d+)` captures a non-empty digit string |
| NetworkManager.FindModemId | backend/app/services/network_manager.py:119 | the search finds the leftmost position where the modem-path pattern matches, and none exactly when it matches nowhere |
| NetworkManager.ModemManagerModemOf | backend/app/services/network_manager.py:106-147 | a ModemManager modem is reported only when mmcli is installed and `mmcli -L` succeeds; it is reported only when the listing names a ModemManager path and `mmcli -m <id>` succeeds; its id is the digits captured at the leftmost match of the modem path, and manufacturer, model and signal quality are the fields `ExtractField` reads from the details |
| NetworkManager.UsbModemOf | backend/app/services/network_manager.py:149-171 | a USB modem is reported with one of Huawei, ZTE, Sierra, Qualcomm, Telit, Quectel as its maker |
| NetworkManager.FindKeyword | backend/app/services/network_manager.py:159-160 | the keyword loop finds the first maker, in list order, that the line mentions, ignoring case |
| NetworkManager.FindModemLine | backend/app/services/network_manager.py:158-166 | the line loop stops at the first line that names a maker |
| NetworkManager.DetectUsbModem | backend/app/services/network_manager.py:149-171 | the first `lsusb` line naming a maker, stripped, with the first maker it names; none when lsusb fails or no line names one |
| NetworkManager.NetworkManager.constructor | backend/app/services/network_manager.py:14-16 | starts with no modem |
| NetworkManager.NetworkManager.DetectModem | backend/app/services/network_manager.py:84-104 | the ModemManager result wins when there is one, otherwise the lsusb result; a detected modem is remembered and a failed detection keeps the previous one |
| NetworkManager.NetworkManager.SignalStrengthOf | backend/app/services/network_manager.py:184-213 | no signal reading without a remembered modem; for a ModemManager modem there is a reading exactly when `mmcli -m <id> --signal-get` succeeds, and its rssi, rsrp and rsrq are the fields extracted from that output |
| NetworkManager.DevAt | backend/app/services/network_manager.py:223-225 | a match of `dev\s+(\S+)` captures a non-empty name without whitespace |
| NetworkManager.FindDev | backend/app/services/network_manager.py:223 | the search finds the leftmost position where `dev\s+(\S+)` matches, and none exactly when it matches nowhere |
| NetworkManager.ConnectionStatusOf | backend/app/services/network_manager.py:215-234 | connected exactly when the route command succeeds with output naming a device; then the interface is the device captured at the leftmost `dev` match, typed by its name; otherwise neither interface nor type |
| NetworkManager.FindLoss | backend/app/services/network_manager.py:247 | the search finds the leftmost position where `(\d+)% packet loss` matches, and none exactly when it matches nowhere |
| NetworkManager.ConnectivityOf | backend/app/services/network_manager.py:240-260 | online exactly when ping succeeds, otherwise offline (the malformed-RTT error reply is left out); the packet loss is the percentage captured at the leftmost `N% packet loss` match, or 100 when ping failed or no percentage was found |
| NetworkManager.PacketLossOfSummary | backend/app/services/network_manager.py:247-248 | a summary `N% packet loss` at the start of the output matches there and yields N |
| VideoStreamer.ParseCameraType | backend/app/services/video_streamer.py:15-19 | a camera type is recognised exactly when the text is one of the enum's values (usb, picamera), and it is the member with that value |
| VideoStreamer.ParseProtocol | backend/app/services/video_streamer.py:22-27 | a protocol is recognised exactly when the text is udp, tcp or hls, and it is the member with that value |
| VideoStreamer.NotValid | backend/app/services/video_streamer.py:74-75 | the message ends with ` is not a valid <enum>`; in front of it stands the value between the repr quotes, escaped so that unescaping gives the value back |
| Strings.ReprQuote | backend/app/services/video_streamer.py:74-75 | the repr of a text is quoted with `"` when the text holds `'` and no `"`, otherwise with `'` |
| Strings.EscapeChar | backend/app/services/video_streamer.py:74-75 | a character is escaped exactly when it is the quote, a backslash or an ASCII control, and an escape starts with a backslash |
| Strings.PyRepr | backend/app/services/video_streamer.py:74-75 | the repr is at least two longer than the text and starts and ends with the chosen quote |
| Strings.UnescapeEscape | backend/app/services/video_streamer.py:74-75 | unescaping the escaped text gives the text back, for either quote |
| Strings.ReprRoundTrip | backend/app/services/video_streamer.py:74-75 | the inside of a repr unescapes to the text it was made from |
| Strings.ReprOfPlain | backend/app/services/video_streamer.py:74-75 | a text with no `'`, backslash or control character is shown between single quotes, unchanged |
| Strings.ReprApostrophe | backend/app/services/video_streamer.py:74-75 | the repr of `it's` is `"it's"` |
| Strings.ReprBackslash | backend/app/services/video_streamer.py:74-75 | the repr of `a\b` doubles the backslash |
| VideoStreamer.ParseDestination | backend/app/services/video_streamer.py:46-55 | the destination (127.0.0.1:5600 when unset) splits at its first colon into a host without colons and the rest; with no colon the host is the whole text and the port 5600 |
| VideoStreamer.DefaultResolution | backend/app/services/video_streamer.py:291-297 | with no resolution or an empty one the pipeline is built for width 1280 and height 720 |
| VideoStreamer.UsbHead | backend/app/services/video_streamer.py:301-327 | the USB pipeline head is 25 elements starting `gst-launch-1.0 -v v4l2src` |
| VideoStreamer.LibcameraHead | backend/app/services/video_streamer.py:404-422 | the fallback Pi pipeline head is 17 elements starting `gst-launch-1.0 -v libcamerasrc` |
| VideoStreamer.UsbPipeline | backend/app/services/video_streamer.py:288-372 | the USB pipeline is built exactly when the resolution unpacks into width and height at its one "x"; it is a v4l2src GStreamer command |
| VideoStreamer.PiPipeline | backend/app/services/video_streamer.py:374-467 | built exactly when the resolution unpacks; with no device, or a device naming rpicam or libcamera, it is a 3-element `sh -c` line, otherwise a libcamerasrc GStreamer command |
| VideoStreamer.BuildPipeline | backend/app/services/video_streamer.py:273-286 | no camera type gives no pipeline; a USB camera gets the USB pipeline and a Pi camera the Pi pipeline; any pipeline has at least three elements |
| VideoStreamer.EndsWithSink | backend/app/services/video_streamer.py:329-372 | both GStreamer pipelines end with the protocol's sink elements |
| VideoStreamer.SinkTail | backend/app/services/video_streamer.py:330-370 | udp ends in `udpsink host= port=`, tcp in `tcpserversink host= port=`, hls is `mp4mux ! filesink location=tmp/hls/stream.mp4`, and no protocol adds nothing |
| VideoStreamer.SinkMatchesProtocol | backend/app/services/video_streamer.py:329-372 | a GStreamer pipeline ends with the sink of its protocol and the parsed destination; with no protocol it ends with a dangling "!" |
| VideoStreamer.RpicamCommandParts | backend/app/services/video_streamer.py:398 | the rpicam shell line contains the bitrate clause and ends with the UDP sink clause |
| VideoStreamer.RpicamLine | backend/app/services/video_streamer.py:389-400 | the rpicam shell line passes the bitrate times 1000 and always streams over UDP to the configured destination, whatever the protocol |
| VideoStreamer.NextRetry | backend/app/services/video_streamer.py:205-216 | the watchdog gives up exactly when the counter has reached max_retries (5); otherwise the counter goes up by one and stays within the limit |
| VideoStreamer.GivesUpAfterMaxRetries | backend/app/services/video_streamer.py:205-216 | when every restart fails, the watchdog gives up exactly on the death after 5 - count restarts, and until then the counter is count + n |
| VideoStreamer.VideoStreamer.constructor | backend/app/services/video_streamer.py:33-44 | no process, no camera type or protocol, not running, empty config, retry counter 0, auto-retry on |
| VideoStreamer.VideoStreamer.Start | backend/app/services/video_streamer.py:57-148 | already streaming is refused; a missing or empty camera type is refused; an unknown camera type or protocol gives the enum's `ValueError` message, the value's Python repr followed by ` is not a valid ` and the enum's name; then the configuration is stored and a pipeline that cannot be built, GStreamer missing or a process that exits at once is an error with nothing running; a live process means streaming with retry counter 0 |
| VideoStreamer.VideoStreamer.Launch | backend/app/services/video_streamer.py:83-144 | the launch ends with GStreamer missing, an early exit reported with its exit code (and up to 500 characters of stderr unless it is a shell line), or streaming with the new process and retry counter 0 |
| VideoStreamer.VideoStreamer.Stop | backend/app/services/video_streamer.py:150-182 | refused and nothing changes unless streaming with a process; otherwise no process, not running, retry counter 0, with the settings kept |
| VideoStreamer.VideoStreamer.WatchdogRound | backend/app/services/video_streamer.py:188-216 | the loop ends when not running; a live process changes nothing; a dead one is restarted while the counter is below the limit, counting the attempt, and the counter resets only when the relaunch stays up; at the limit streaming stops |
| VideoStreamer.VideoStreamer.Restart | backend/app/services/video_streamer.py:227-271 | the old process is dropped and the pipeline rebuilt from the stored settings; a relaunch that stays up resets the counter, one that exits is kept without resetting it, and a failed build or launch leaves no process |
| VideoStreamer.VideoStreamer.Status | backend/app/services/video_streamer.py:469-488 | reports running, the retry counter, the limit, the auto-retry flag and the process; the configuration, exactly as stored, only while running; the camera type's and the protocol's enum values exactly when each is set |
| MediaMtxManager.ParseCameraType | backend/app/services/mediamtx_manager.py:17-21 | "usb" and only "usb" is the USB camera; "picamera" and only "picamera" is the Pi camera |
| MediaMtxManager.PathName | backend/app/services/mediamtx_manager.py:212-217 | the Pi camera always publishes at "cam"; a USB camera at the configured path name, "uav-camera" by default |
| MediaMtxManager.StreamUrls | backend/app/services/mediamtx_manager.py:428-448 | there is a URL for each protocol exactly when it is enabled (rtsp, hls, webrtc on by default, rtmp off), on the manager's fixed port for that protocol |
| MediaMtxManager.UrlsEndWithPath | backend/app/services/mediamtx_manager.py:436-446 | every stream URL ends with "/" and the path name |
| MediaMtxManager.FfmpegPublishesToPath | backend/app/services/mediamtx_manager.py:309-316 | the USB camera's ffmpeg command publishes to rtsp://localhost:$RTSP_PORT/ and the path name |
| MediaMtxManager.SwitchKeys | backend/app/services/mediamtx_manager.py:281-291 | the USB branch always writes api, apiAddress and rtspDisable, and writes each of hlsDisable, webrtcDisable, rtmpDisable exactly when the default document has it or the protocol is enabled |
| MediaMtxManager.PiPathMeetsSpec | backend/app/services/mediamtx_manager.py:234-250 | the Pi path fails exactly when a size other than 1920x1080 has a non-numeric part; otherwise it is source rpiCamera plus width and height only for a size other than 1920x1080, FPS only when not 30, and bitrate (times 1000) only when not 1000 |
| MediaMtxManager.UsbPathMeetsSpec | backend/app/services/mediamtx_manager.py:302-330 | the USB path is an on-demand ffmpeg source with its timeouts, with read and publish credentials exactly when authentication is on and both a user and a password are given, and recording keys exactly when recording is on |
| MediaMtxManager.UsbPathSource | backend/app/services/mediamtx_manager.py:302-316 | the on-demand settings and source survive the credential and recording writes |
| MediaMtxManager.UsbPathCredentials | backend/app/services/mediamtx_manager.py:319-323 | the credential keys are present exactly when authentication is wanted, both pairs set to the user name and the password |
| MediaMtxManager.UsbPathRecording | backend/app/services/mediamtx_manager.py:326-330 | the recording keys are present exactly when recording is on, with the file pattern under the recording directory and the format |
| MediaMtxManager.SwitchKeeps | backend/app/services/mediamtx_manager.py:286-291 | a protocol switch keeps every key of the default document that is not written |
| MediaMtxManager.SwitchWrites | backend/app/services/mediamtx_manager.py:286-291 | a written protocol switch is the negated setting, and no other key changes |
| MediaMtxManager.SwitchesKeepOthers | backend/app/services/mediamtx_manager.py:281-291 | after the USB branch's API and protocol writes, the keys are the default document's plus those written, and unwritten keys keep their values |
| MediaMtxManager.SwitchesMeetSpec | backend/app/services/mediamtx_manager.py:281-291 | after those writes the API is on at 127.0.0.1:9997 and every protocol switch present is the negated setting |
| MediaMtxManager.WithPathsKeeps | backend/app/services/mediamtx_manager.py:229-230 | adding an empty paths mapping when missing keeps every other key, and paths is then the default document's |
| MediaMtxManager.PutPathKeeps | backend/app/services/mediamtx_manager.py:253 | writing the path fails exactly when paths is not a mapping; otherwise every other path and key is kept and the path holds what was built |
| MediaMtxManager.PiDocumentOutcome | backend/app/services/mediamtx_manager.py:219-255 | the Pi branch fails on a resolution without one "x", a bad custom size or a paths value that is not a mapping; otherwise it turns the API on, sets authMethod internal, writes the cam path and keeps everything else |
| MediaMtxManager.PiSizedDocumentOutcome | backend/app/services/mediamtx_manager.py:220-253 | the same, once the resolution has split |
| MediaMtxManager.UsbDocumentOutcome | backend/app/services/mediamtx_manager.py:257-333 | the USB branch fails on a bad resolution or a paths value that is not a mapping; otherwise it writes the API, the protocol switches and the path, and keeps every other key and path of the default document |
| MediaMtxManager.DocumentGenerated | backend/app/services/mediamtx_manager.py:191-338 | an unknown camera type fails; otherwise the document meets the outcome of its camera type's branch |
| MediaMtxManager.GenerateConfig | backend/app/services/mediamtx_manager.py:191-338 | the sequence of dict writes computes `Document` of the settings and the default document |
| MediaMtxManager.PiConfig | backend/app/services/mediamtx_manager.py:219-255 | the Pi branch's writes compute the Pi document |
| MediaMtxManager.BuildPiPath | backend/app/services/mediamtx_manager.py:234-250 | the Pi path built step by step is `PiPath` of the parsed width and height |
| MediaMtxManager.UsbConfig | backend/app/services/mediamtx_manager.py:257-333 | the USB branch's writes compute the USB document |
| MediaMtxManager.WriteSwitches | backend/app/services/mediamtx_manager.py:281-291 | the API and protocol writes compute `Switches` |
| MediaMtxManager.BuildUsbPath | backend/app/services/mediamtx_manager.py:302-330 | the USB path built step by step is `UsbPath` with the ffmpeg source |
| MediaMtxManager.ExitMessage | backend/app/services/mediamtx_manager.py:106-112 | the error for a server that exited at once starts "MediaMTX failed to start (exit code " |
| MediaMtxManager.MediaMtxManager.constructor | backend/app/services/mediamtx_manager.py:27-49 | no process, not running, empty settings, nothing written |
| MediaMtxManager.MediaMtxManager.Start | backend/app/services/mediamtx_manager.py:51-145 | already running or a missing binary is refused and nothing changes; otherwise the settings are stored; a document error is reported and nothing is written; otherwise the document is written and the launch decides: binary not found, an early exit with its output, or running with the process, the path name and the stream URLs |
| MediaMtxManager.MediaMtxManager.Launch | backend/app/services/mediamtx_manager.py:87-141 | the launch ends with the binary not found, an early exit, or running with the process, its path name and URLs |
| MediaMtxManager.MediaMtxManager.Stop | backend/app/services/mediamtx_manager.py:147-178 | refused and nothing changes unless running with a process; otherwise stopped, with the settings and the written document kept |
| MediaMtxManager.MediaMtxManager.WatchdogRound | backend/app/services/mediamtx_manager.py:358-377 | a running server found dead is marked stopped and not restarted; otherwise nothing changes |
| MediaMtxManager.MediaMtxManager.Status | backend/app/services/mediamtx_manager.py:388-410 | reported running exactly when running and the process has not exited; then the camera type, the path name, the settings and the URLs are reported, and otherwise none of them |
| VpnManager.AddrIpv4 | backend/app/services/vpn_manager.py:125-126 | an assigned address yields an IPv4 part exactly when it has a "/" and the text before the first "/" has no ":"; that part is the address's prefix up to the "/" |
| VpnManager.FirstIpv4 | backend/app/services/vpn_manager.py:123-126 | the address taken from a network has neither "/" nor ":" |
| VpnManager.FirstIpv4Leftmost | backend/app/services/vpn_manager.py:123-126 | an address is found exactly when some assigned address has an IPv4 part, and it is the leftmost one |
| VpnManager.ZeroTierIp | backend/app/services/vpn_manager.py:120-127 | the address returned has neither "/" nor ":" |
| VpnManager.ZeroTierIpLeftmost | backend/app/services/vpn_manager.py:120-127 | no address exactly when no network with the wanted id has an IPv4 address; otherwise the first such network's first IPv4 address |
| VpnManager.FindZeroTierIp | backend/app/services/vpn_manager.py:113-131 | the nested loops with early return compute `ZeroTierIpOf`: none when listnetworks fails or its output does not decode, otherwise `ZeroTierIp` |
| VpnManager.DigitsDot | backend/app/services/vpn_manager.py:232 | one `\d+\.` group matches a digit run followed by a dot |
| VpnManager.QuadEnd | backend/app/services/vpn_manager.py:339 | a match of `\d+\.\d+\.\d+\.\d+` from a position ends after the last digit run |
| VpnManager.RunEndOfDigits | backend/app/services/vpn_manager.py:232 | a digit run followed by a non-digit ends there |
| VpnManager.QuadEndParts | backend/app/services/vpn_manager.py:339-341 | a matched quad splits into four non-empty digit runs joined by dots |
| VpnManager.SliceAtDots | backend/app/services/vpn_manager.py:339-341 | the text between the dots of a match is the four digit runs |
| VpnManager.DigitsDotAt | backend/app/services/vpn_manager.py:232 | a digit run with a dot after it is one `\d+\.` group |
| VpnManager.DigitsToEnd | backend/app/services/vpn_manager.py:232 | a final digit run reaches the end of the text |
| VpnManager.QuadLayout | backend/app/services/vpn_manager.py:232 | the positions of the dots in four digit runs joined by dots |
| VpnManager.QuadOfParts | backend/app/services/vpn_manager.py:232 | four digit runs joined by dots form a dotted quad |
| VpnManager.QuadParts | backend/app/services/vpn_manager.py:232 | every dotted quad is four digit runs joined by dots |
| VpnManager.CapturedQuad | backend/app/services/vpn_manager.py:339-349 | the text a quad match captures is itself a dotted quad |
| VpnManager.TailscaleIpOf | backend/app/services/vpn_manager.py:225-234 | an address exactly when `tailscale ip -4` succeeds and its stripped output is a dotted quad; the address is that output |
| VpnManager.Search | backend/app/services/vpn_manager.py:339-347 | `re.search` returns the capture at the leftmost matching position, and none exactly when the pattern matches nowhere |
| VpnManager.InetAt | backend/app/services/vpn_manager.py:339 | an `inet` match captures a dotted quad |
| VpnManager.AddressAt | backend/app/services/vpn_manager.py:347 | an `Address =` match captures a dotted quad |
| VpnManager.WireGuardIpOf | backend/app/services/vpn_manager.py:331-351 | the address is always a dotted quad; the first `inet` address of a successful `ip addr show wg0` wins; otherwise the `Address =` line of the configuration file, and none without a file |
| VpnManager.InstallFailure | backend/app/services/vpn_manager.py:42-45 | configuration stops exactly when the tool is missing and its installation fails, with "Installation failed: " and the installer's stderr |
| VpnManager.FirstAssigned | backend/app/services/vpn_manager.py:59-63 | the first poll whose address is non-empty, and none only when no poll yields one |
| VpnManager.ZeroTierOutcome | backend/app/services/vpn_manager.py:36-79 | a connection reports the network id and a non-empty address that one of the thirty polls yielded; once joined, the reply is the no-address error exactly when no poll yields an address; a failed join never connects |
| VpnManager.TailscaleOutcome | backend/app/services/vpn_manager.py:157-191 | connected exactly when installation, `tailscale up` and a dotted-quad `tailscale ip -4` all succeed, and then with that address |
| VpnManager.WireGuardOutcome | backend/app/services/vpn_manager.py:259-297 | connected exactly when installation, `wg-quick up` and the address lookup succeed, and then with a dotted-quad address |
| VpnManager.VpnManager.constructor | backend/app/services/vpn_manager.py:26-32 | no provider, disconnected, no address, no network id, no auth key |
| VpnManager.VpnManager.ConfigureZeroTier | backend/app/services/vpn_manager.py:36-83 | the reply is `ZeroTierReply`; a connection makes ZeroTier the provider, connected, with that address and network id; any other reply changes nothing |
| VpnManager.VpnManager.ConfigureTailscale | backend/app/services/vpn_manager.py:157-195 | the reply is `TailscaleReply`; a connection makes Tailscale the provider, connected, with that address, and keeps the auth key; any other reply changes nothing |
| VpnManager.VpnManager.ConfigureWireGuard | backend/app/services/vpn_manager.py:259-301 | the reply is `WireGuardReply`; a connection makes WireGuard the provider, connected, with that address; any other reply changes nothing |
| VpnManager.VpnManager.Adopt | backend/app/services/vpn_manager.py:183-191 | a non-empty address makes the provider connected with it; otherwise the missing-address error and nothing changes |
| VpnManager.VpnManager.DisconnectZeroTier | backend/app/services/vpn_manager.py:133-153 | with no network id (or an empty one) the reply is the no-network error; otherwise a successful leave clears status and address, and a failed one reports its stderr and changes nothing |
| VpnManager.VpnManager.DisconnectTailscale | backend/app/services/vpn_manager.py:240-255 | a successful `tailscale down` clears status and address; a failed one reports its stderr and changes nothing |
| VpnManager.VpnManager.DisconnectWireGuard | backend/app/services/vpn_manager.py:357-372 | a successful `wg-quick down` clears status and address; a failed one reports its stderr and changes nothing |
| VpnManager.VpnManager.Leave | backend/app/services/vpn_manager.py:143-149 | the shared tail of the disconnects: success clears status and address, failure reports stderr and changes nothing |
| VpnManager.VpnManager.Disconnect | backend/app/services/vpn_manager.py:376-385 | without a provider it is the no-connection error; ZeroTier without a network id is the no-network error; otherwise the provider's own down command (leave of the network, `tailscale down`, `wg-quick down`) is run, and success gives the disconnected state without an address while a failure reports stderr and changes nothing; the provider is never changed |
| VpnManager.VpnManager.Status | backend/app/services/vpn_manager.py:387-394 | reports the provider's name, the status and the address; the network id only while ZeroTier is the provider, and then always |
| WebSocket.StepOf | backend/app/api/websocket.py:64-82 | a message that is JSON but not an object ends the session; an object of type "ping" is answered with a pong; one of type "subscribe" is answered with its topics, "[]" by default; text that is not JSON and any other type are passed over |
| WebSocket.Replies | backend/app/api/websocket.py:62-88 | a client never receives more replies than it sent messages |
| WebSocket.DropEndsSession | backend/app/api/websocket.py:86-88 | messages after one that is not a JSON object are never answered |
| WebSocket.RepliesAppend | backend/app/api/websocket.py:62-82 | without such a message, the replies to two batches of messages are the replies to each batch, in order |
| WebSocket.PingsArePonged | backend/app/api/websocket.py:72-73 | every ping is answered with exactly one pong, in order |
| WebSocket.ConnectionManager.constructor | backend/app/api/websocket.py:15-16 | no connections |
| WebSocket.ConnectionManager.Connect | backend/app/api/websocket.py:18-22 | the client is added to the active connections |
| WebSocket.ConnectionManager.Disconnect | backend/app/api/websocket.py:24-29 | the client is removed; an unknown client or a second call changes nothing |
| WebSocket.ConnectionManager.Broadcast | backend/app/api/websocket.py:31-50 | the message reaches exactly the connected clients whose send does not fail, and afterwards exactly those remain connected; with no clients nothing happens |
| WebSocket.ConnectionManager.Serve | backend/app/api/websocket.py:56-88 | the client receives `Replies` of what it sent, and is no longer connected when the session ends |
| WebSocket.ConnectionManager.BroadcastSystemStats | backend/app/api/websocket.py:91-104 | an empty statistics snapshot is not broadcast; a non-empty one goes out as a system message, and the clients whose send fails are dropped |
| WebSocket.ConnectionManager.BroadcastMavlinkStats | backend/app/api/websocket.py:111-124 | the router status is broadcast as a mavlink message exactly while the router is running, and the clients whose send fails are dropped |
| SystemMonitor.EntryOf | backend/app/services/system_monitor.py:173-180 | an entry keeps the process's pid and name, and reports a missing CPU or memory share as 0 |
| SystemMonitor.Entries | backend/app/services/system_monitor.py:170-182 | there are never more entries than processes |
| SystemMonitor.EntriesOfReadable | backend/app/services/system_monitor.py:170-182 | every entry comes from a process that could be read, and every such process gives an entry |
| SystemMonitor.EntriesOfAllReadable | backend/app/services/system_monitor.py:170-180 | when every process can be read there is one entry per process, in order |
| SystemMonitor.CollectProcesses | backend/app/services/system_monitor.py:168-182 | the loop over the processes gives `Entries`, skipping those that vanished or denied access |
| SystemMonitor.Ranked | backend/app/services/system_monitor.py:185-188 | ranking is a permutation of the list; "cpu" orders by CPU share and "memory" by memory share (unrounded), largest first; any other key leaves the list as it is |
| SystemMonitor.Top | backend/app/services/system_monitor.py:191 | the first twenty entries, or all of a shorter list |
| SystemMonitor.GetProcesses | backend/app/services/system_monitor.py:165-191 | the result is the first twenty of the ranked entries |
| SystemMonitor.TopKeepsLargest | backend/app/services/system_monitor.py:185-191 | the result has at most twenty entries, all drawn from the list, sorted, and every entry left out has a key no larger than any kept entry |
| SystemMonitor.TopUnsorted | backend/app/services/system_monitor.py:185-191 | with any other key the result is the first twenty readable processes in their original order |
| SystemMonitor.SystemMonitor.constructor | backend/app/services/system_monitor.py:15-19 | not running, no task, empty statistics |
| SystemMonitor.SystemMonitor.Start | backend/app/services/system_monitor.py:21-28 | starting a running monitor changes nothing; otherwise it runs with a new task |
| SystemMonitor.SystemMonitor.Stop | backend/app/services/system_monitor.py:30-44 | afterwards the monitor is not running and holds no task; stopping a stopped monitor changes nothing |
| SystemMonitor.SystemMonitor.Refresh | backend/app/services/system_monitor.py:46-51 | while running the snapshot becomes the latest statistics; otherwise it is kept |
| Sorting.SortDesc | backend/app/services/camera_detector.py:175-179 | the result is a permutation of the input, ordered by a non-increasing key; the same sort ranks the process list by CPU or memory share |
| Sorting.WithKey | backend/app/services/camera_detector.py:175-179 | the elements with a given key, no more than the input holds |
| Sorting.InsertStable | backend/app/services/camera_detector.py:175-179 | inserting one element keeps, for every key, the order of the elements with that key |
| Sorting.SortDescStable | backend/app/services/camera_detector.py:175-179 | the sort is stable: for every key, the elements with that key keep their input order |
| Sorting.Dedup | backend/app/services/camera_detector.py:176 | the result has no repeats and holds exactly the elements of the input; it is empty only when the input is |

## Left out

- Hardware and operating-system effects are left out. This covers the serial port, UDP/TCP sockets and their `recv` loops, `subprocess` launches and `communicate`, `psutil`, the file system and `asyncio` tasks, sleeps and cancellation. Each outcome they feed into the logic is a method parameter. Examples are a command's exit code and output, whether a send or a launch succeeds, and the next process table.
- MAVLink framing, CRC and message decoding belong to `pymavlink`, which is not part of this model. A message is a record with a type tag and the fields `_parse_telemetry` reads. Forwarding passes its bytes on untouched.
- The timing loops are not modelled: the heartbeat wait with its timeout, the reconnect delay, the idle back-off of `_route_messages` and the per-destination listen tasks. One heartbeat check, one routing error or one watchdog round is a method call. Concurrency between the WebSocket handler and the broadcasts is not modelled either.
- Floating point is kept as exact `real` values. The 1e7/1000/100 scalings in `_parse_telemetry` are applied exactly, with no rounding error. `round(..., 1)` in the process list and statistics is not applied. As a consequence `SystemMonitor.Ranked` orders by the unrounded shares while the source sorts by the rounded ones: two shares that are equal once rounded to one decimal keep the `process_iter` order in the source but may be swapped in the model, which can change which twenty entries `[:20]` keeps. The average RTT of `test_connectivity` is not parsed. When `float()` raises on a malformed `min/avg/max/mdev` capture (such as `1.2.3`), the source replies `{"status": "error"}` (network_manager.py:251-264); the model never produces that reply, so "online exactly when ping succeeds" holds of the model only.
- `get_stats`, the CPU temperature, the network counters, uptime and disk I/O of the system monitor are not modelled. The snapshot is an input map, and only its caching by `_monitor_loop` and `get_current_stats` is modelled.
- Regular expressions and `str` methods are explicit scans over ASCII text, in the `Strings` module. `\d` and `\s` match only ASCII digits and blanks, and lower-casing is ASCII only.
- A configuration key is either absent (`None` in the model) or holds a value. A key present with the value `None` cannot be represented, yet `VideoConfig.model_dump()` (api/routes/video.py:10-66) passes unset `device`, `username`, `password` and `record_path` that way. The source then behaves differently from the model. `config.get("device", "/dev/video0")` (mediamtx_manager.py:207, video_streamer.py:290) returns `None`, so the ffmpeg source reads `-i None`. Recording with `record_path` `None` raises in `Path(None).mkdir` (mediamtx_manager.py:272-327). The model uses the default in both cases. `None` credentials are falsy and are dropped, as in the model.
- Strings.PyRepr: escapes the quote, the backslash and ASCII control characters (`\t`, `\n`, `\r`, otherwise `\xNN`). Python's `repr` also escapes non-printable characters beyond ASCII (such as U+0085, U+00A0 or U+2028, as `\xNN`, `\uNNNN` or `\UNNNNNNNN`); the model keeps every non-ASCII character as it is.
- Strings.ParseInt: reads an optional sign and ASCII digits after trimming blanks. Python's `int()` also accepts `_` between digits and non-ASCII digits; the model rejects both.
- `json.loads` on a WebSocket text is an input (`Incoming`). A failure of `send_json` inside the handler is not modelled.
- YAML is not serialised. The MediaMTX document is a key/value tree, the default document read from disk is an input, and key order is not kept.
- The WireGuard configuration is not written to disk or made private with `chmod`. Its text is the input that `_get_wireguard_ip` falls back on.
- Shell installers, the MediaMTX HTTP API (`get_api_status`, `_wait_for_api`), `get_logs`, `restart`, `get_stream_errors` and the HLS directory clean-up are left out, as are database and settings wiring. None of them holds logic beyond forwarding a call.
- SystemMonitor.GetProcesses: sorts a sequence value rather than a Python list in place. A failure of `process_iter` as a whole, which returns `[]`, is not modelled.
- CameraDetector.CameraFormats: duplicates are removed keeping first occurrences. The source builds a `set`, so the order of two sizes of equal width is left to Python's hashing. The model fixes one.
- VpnManager.ZeroTierOutcome: a network whose `assignedAddresses` is `null` is treated as an empty list. In the source, iterating `null` raises, and the poll yields no address at once. The two differ only when a later network has the same id.
- Logging is not modelled.

## Where the code and its description differ

The model follows the code wherever the two differ.

- `start` of the router keeps the message counters from an earlier run rather than resetting them.
- `heartbeat_received` is set only by `start` and `_reconnect`; a later heartbeat on its own does not set it.
- A second `stop` of the router reports "not running" rather than succeeding quietly.
- A ZeroTier address such as "/24" yields the empty string. Python treats that as no address and keeps polling.
- A WebSocket message that is valid JSON but not an object makes `message.get` raise, and the client is disconnected. It is not skipped.
- The USB branch of the MediaMTX configuration computes a bitrate it never writes.
- The `rpicam-vid` shell line always ends in `udpsink`, whatever protocol was asked for.
- The video watchdog's restart launches the pipeline list directly, even when the pipeline is an `sh -c` command.
- The MediaMTX watchdog never restarts the server; it only records that the server stopped.
