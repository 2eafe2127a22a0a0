/**
 * The MAVLink telemetry router (backend/app/services/mavlink_router.py).
 *
 * A `TelemetryDestination` is a named UDP/TCP peer with its own socket/connected
 * flags; a `MAVLinkRouter` owns the list of destinations, the running flag, the
 * heartbeat latch, the retry counter, the message counters and the telemetry
 * snapshot. Sockets, the serial link and pymavlink are not modelled: every I/O
 * call is replaced by the outcome it had, passed in by the caller.
 */
module MavlinkRouter {
  import opened Wrappers
  import opened Strings

  type uint8 = x: int | 0 <= x < 256

  /** MAV_MODE_FLAG_SAFETY_ARMED of the MAVLink common dialect's MAV_MODE_FLAG enum. */
  const MAV_MODE_FLAG_SAFETY_ARMED: bv8 := 128

  const DEFAULT_SERIAL_PORT := "/dev/ttyACM0"
  const DEFAULT_BAUD_RATE := 57600
  const MAX_RETRIES: nat := 10

  // ================================================================ messages and telemetry

  /**
   * The decoded content of a MAVLink message, for the five types the router reads.
   * `OtherType` stands for every other message type.
   */
  datatype Payload =
    | Heartbeat(baseMode: uint8, customMode: nat)
    | GlobalPositionInt(lat: int, lon: int, alt: int, hdg: int)
    | VfrHud(groundspeed: real, airspeed: real, heading: int, throttle: int, climb: real)
    | SysStatus(voltageBattery: int, currentBattery: int, batteryRemaining: int)
    | GpsRawInt(fixType: int, satellitesVisible: int)
    | OtherType(typeName: string)

  /** A message as pymavlink hands it over: its payload and its encoded bytes (`get_msgbuf()`). */
  datatype Message = Message(payload: Payload, msgbuf: seq<uint8>)

  /** The `telemetry` dict; `None` is a field no message has reported yet. */
  datatype Telemetry = Telemetry(
    altitude: Option<real>, groundspeed: Option<real>, airspeed: Option<real>,
    heading: Option<real>, batteryVoltage: Option<real>, batteryCurrent: Option<real>,
    batteryRemaining: Option<int>, latitude: Option<real>, longitude: Option<real>,
    gpsFixType: Option<int>, gpsSatellites: Option<int>, mode: Option<int>,
    armed: bool, throttle: Option<int>, climbRate: Option<real>)

  const InitialTelemetry := Telemetry(None, None, None, None, None, None, None, None, None,
                                      None, None, None, false, None, None)

  /** The names of the telemetry fields, for stating which ones a message touches. */
  datatype Field =
    | Altitude | Groundspeed | Airspeed | Heading | BatteryVoltage | BatteryCurrent
    | BatteryRemaining | Latitude | Longitude | GpsFixType | GpsSatellites | Mode
    | Armed | Throttle | ClimbRate

  datatype FieldValue = RealValue(r: Option<real>) | IntValue(i: Option<int>) | FlagValue(b: bool)

  function Get(t: Telemetry, f: Field): FieldValue {
    match f
    case Altitude => RealValue(t.altitude)
    case Groundspeed => RealValue(t.groundspeed)
    case Airspeed => RealValue(t.airspeed)
    case Heading => RealValue(t.heading)
    case BatteryVoltage => RealValue(t.batteryVoltage)
    case BatteryCurrent => RealValue(t.batteryCurrent)
    case BatteryRemaining => IntValue(t.batteryRemaining)
    case Latitude => RealValue(t.latitude)
    case Longitude => RealValue(t.longitude)
    case GpsFixType => IntValue(t.gpsFixType)
    case GpsSatellites => IntValue(t.gpsSatellites)
    case Mode => IntValue(t.mode)
    case Armed => FlagValue(t.armed)
    case Throttle => IntValue(t.throttle)
    case ClimbRate => RealValue(t.climbRate)
  }

  /** A field holds a reported value. */
  predicate Reported(v: FieldValue) {
    match v
    case RealValue(r) => r.Some?
    case IntValue(i) => i.Some?
    case FlagValue(_) => true
  }

  /** Which fields each message type reports: the table the extractor follows. */
  function Writes(p: Payload): set<Field> {
    match p
    case GlobalPositionInt(_, _, _, _) => {Latitude, Longitude, Altitude, Heading}
    case VfrHud(_, _, _, _, _) => {Groundspeed, Airspeed, Heading, Throttle, ClimbRate}
    case SysStatus(_, _, _) => {BatteryVoltage, BatteryCurrent, BatteryRemaining}
    case GpsRawInt(_, _) => {GpsFixType, GpsSatellites}
    case Heartbeat(_, _) => {Armed, Mode}
    case OtherType(_) => {}
  }

  /** `bool(base_mode & 128)`. */
  predicate IsArmed(baseMode: uint8) {
    (baseMode as bv8) & MAV_MODE_FLAG_SAFETY_ARMED != 0
  }

  /** The safety-armed flag is the top bit of the 8-bit base mode. */
  lemma ArmedIffTopBit(baseMode: uint8)
    ensures IsArmed(baseMode) <==> baseMode >= 128
  {
  }

  /**
   * What `_parse_telemetry` does to the snapshot: exactly the fields of the message's
   * type are written (each with a value), every other field keeps its last value.
   */
  function ApplyMessage(t: Telemetry, p: Payload): (r: Telemetry)
    ensures forall f :: f !in Writes(p) ==> Get(r, f) == Get(t, f)
    ensures forall f :: f in Writes(p) ==> Reported(Get(r, f))
    ensures p.Heartbeat? ==> r.armed == IsArmed(p.baseMode) && r.mode == Some(p.customMode)
    ensures p.GpsRawInt? ==> r.gpsFixType == Some(p.fixType) && r.gpsSatellites == Some(p.satellitesVisible)
  {
    match p
    case GlobalPositionInt(lat, lon, alt, hdg) =>
      t.(latitude := Some(lat as real / 10000000.0), longitude := Some(lon as real / 10000000.0),
         altitude := Some(alt as real / 1000.0), heading := Some(hdg as real / 100.0))
    case VfrHud(groundspeed, airspeed, heading, throttle, climb) =>
      t.(groundspeed := Some(groundspeed), airspeed := Some(airspeed),
         heading := Some(heading as real), throttle := Some(throttle), climbRate := Some(climb))
    case SysStatus(voltage, current, remaining) =>
      t.(batteryVoltage := Some(voltage as real / 1000.0),
         batteryCurrent := Some(current as real / 100.0), batteryRemaining := Some(remaining))
    case GpsRawInt(fixType, satellites) =>
      t.(gpsFixType := Some(fixType), gpsSatellites := Some(satellites))
    case Heartbeat(baseMode, customMode) =>
      t.(armed := IsArmed(baseMode), mode := Some(customMode))
    case OtherType(_) => t
  }

  /** The snapshot after a stream of messages, in arrival order. */
  function ApplyAll(t: Telemetry, ps: seq<Payload>): Telemetry
    decreases |ps|
  {
    if ps == [] then t else ApplyAll(ApplyMessage(t, ps[0]), ps[1..])
  }

  /** A field that no message of the stream reports keeps its value (sparse updates). */
  lemma {:induction false} UnreportedFieldPersists(t: Telemetry, ps: seq<Payload>, f: Field)
    requires forall i :: 0 <= i < |ps| ==> f !in Writes(ps[i])
    ensures Get(ApplyAll(t, ps), f) == Get(t, f)
    decreases |ps|
  {
    if ps != [] {
      UnreportedFieldPersists(ApplyMessage(t, ps[0]), ps[1..], f);
    }
  }

  /** The last message that reports a field decides its value (most recent value wins). */
  lemma {:induction false} LastReportWins(t: Telemetry, ps: seq<Payload>, k: nat, f: Field)
    requires k < |ps| && f in Writes(ps[k])
    requires forall i :: k < i < |ps| ==> f !in Writes(ps[i])
    ensures Get(ApplyAll(t, ps), f) == Get(ApplyAll(t, ps[..k + 1]), f)
    decreases |ps|
  {
    if k == 0 {
      assert ps[..1][1..] == [];
      UnreportedFieldPersists(ApplyMessage(t, ps[0]), ps[1..], f);
    } else {
      assert ps[..k + 1][1..] == ps[1..][..k];
      LastReportWins(ApplyMessage(t, ps[0]), ps[1..], k - 1, f);
    }
  }

  // ================================================================ destinations

  /** How the socket calls inside `connect()` went. */
  datatype ConnectOutcome =
    | SocketReady          // socket created, bound (UDP) or connected (TCP)
    | SocketCreateFailed   // `socket.socket(...)` itself raised
    | SocketSetupFailed    // the socket was created, then bind/connect raised

  /** How `recvfrom`/`recv` went. */
  datatype RecvOutcome = Received(data: seq<uint8>) | WouldBlock | RecvFailed

  /** The two mutable flags of a destination: a socket is held, the peer is connected. */
  datatype Link = Link(hasSocket: bool, connected: bool)

  predicate KnownProtocol(protocol: string) {
    protocol == "udp" || protocol == "tcp"
  }

  /** The flags after `connect()`. */
  function AfterConnect(protocol: string, l: Link, o: ConnectOutcome): (r: Link)
    ensures KnownProtocol(protocol) ==> (r.connected <==> o == SocketReady)
    ensures !KnownProtocol(protocol) ==> r == l
    ensures r.connected && !l.connected ==> r.hasSocket
  {
    if !KnownProtocol(protocol) then l
    else match o
      case SocketReady => Link(true, true)
      case SocketCreateFailed => Link(l.hasSocket, false)
      case SocketSetupFailed => Link(true, false)
  }

  /** `send()` returns true: it was connected with a socket and the socket call did not raise. */
  predicate SendSucceeds(protocol: string, l: Link, delivered: bool) {
    l.connected && l.hasSocket && (delivered || !KnownProtocol(protocol))
  }

  /** The flags after `send()`: a raising socket call clears `connected`, nothing else changes. */
  function AfterSend(protocol: string, l: Link, delivered: bool): (r: Link)
    ensures r.hasSocket == l.hasSocket
    ensures !(l.connected && l.hasSocket) ==> r == l
    ensures r.connected <==> l.connected && !(l.hasSocket && KnownProtocol(protocol) && !delivered)
  {
    if l.connected && l.hasSocket && KnownProtocol(protocol) && !delivered then l.(connected := false)
    else l
  }

  /** One destination's flags after one routed message: send, and reconnect on failure. */
  function AfterRoute(protocol: string, l: Link, delivered: bool, reconnect: ConnectOutcome): (r: Link)
    ensures SendSucceeds(protocol, l, delivered) ==> r == l
    ensures !SendSucceeds(protocol, l, delivered) && KnownProtocol(protocol) ==> (r.connected <==> reconnect == SocketReady)
  {
    if SendSucceeds(protocol, l, delivered) then l
    else AfterConnect(protocol, AfterSend(protocol, l, delivered), reconnect)
  }

  /** The flags after the reconnect pass of `start`/`_reconnect`: only a disconnected peer is reconnected. */
  function Revive(protocol: string, l: Link, o: ConnectOutcome): (r: Link)
    ensures l.connected ==> r == l
    ensures !l.connected && KnownProtocol(protocol) ==> (r.connected <==> o == SocketReady)
  {
    if l.connected then l else AfterConnect(protocol, l, o)
  }

  /** How many destinations accept a message: the number `messages_forwarded` grows by. */
  /**
   * How many of the first `n` destinations accept a message: the number
   * `messages_forwarded` grows by once all `n` have been offered it.
   */
  function Delivered(protocols: seq<string>, links: seq<Link>, deliveries: seq<bool>, n: nat): (c: nat)
    requires |protocols| == |links| == |deliveries| && n <= |links|
    ensures c <= n
  {
    if n == 0 then 0
    else
      Delivered(protocols, links, deliveries, n - 1)
        + (if SendSucceeds(protocols[n - 1], links[n - 1], deliveries[n - 1]) then 1 else 0)
  }

  /** Every connected destination whose socket accepts the bytes is counted as forwarded. */
  lemma {:induction false} AllDeliveredWhenAllAccept(protocols: seq<string>, links: seq<Link>, deliveries: seq<bool>, n: nat)
    requires |protocols| == |links| == |deliveries| && n <= |links|
    requires forall i :: 0 <= i < n ==> links[i].connected && links[i].hasSocket && deliveries[i]
    ensures Delivered(protocols, links, deliveries, n) == n
  {
    if n > 0 {
      AllDeliveredWhenAllAccept(protocols, links, deliveries, n - 1);
    }
  }

  /** A destination that refuses the message is never counted, whatever the others do. */
  lemma {:induction false} NoneDeliveredWhenAllRefuse(protocols: seq<string>, links: seq<Link>, deliveries: seq<bool>, n: nat)
    requires |protocols| == |links| == |deliveries| && n <= |links|
    requires forall i :: 0 <= i < n ==> !SendSucceeds(protocols[i], links[i], deliveries[i])
    ensures Delivered(protocols, links, deliveries, n) == 0
  {
    if n > 0 {
      NoneDeliveredWhenAllRefuse(protocols, links, deliveries, n - 1);
    }
  }

  /**
   * Fan-out isolation: one failing destination costs exactly one delivery; every other
   * destination still receives the message.
   */
  lemma {:induction false} OneFailureIsIsolated(protocols: seq<string>, links: seq<Link>, deliveries: seq<bool>, n: nat, bad: nat)
    requires |protocols| == |links| == |deliveries| && bad < n <= |links|
    requires forall i :: 0 <= i < n && i != bad ==> links[i].connected && links[i].hasSocket && deliveries[i]
    requires !SendSucceeds(protocols[bad], links[bad], deliveries[bad])
    ensures Delivered(protocols, links, deliveries, n) == n - 1
  {
    if bad == n - 1 {
      AllDeliveredWhenAllAccept(protocols, links, deliveries, n - 1);
    } else {
      OneFailureIsIsolated(protocols, links, deliveries, n - 1, bad);
    }
  }

  /** A `TelemetryDestination`: fixed name, host, port and protocol, and its socket/connected flags. */
  class TelemetryDestination {
    const name: string
    const host: string
    const port: int
    const protocol: string
    var hasSocket: bool
    var connected: bool

    /** Connected implies a socket is held over a protocol `connect()` knows. */
    ghost predicate Valid()
      reads this
    {
      connected ==> hasSocket && KnownProtocol(protocol)
    }

    function State(): Link
      reads this
    {
      Link(hasSocket, connected)
    }

    constructor (name: string, host: string, port: int, protocol: string)
      ensures this.name == name && this.host == host && this.port == port
      ensures this.protocol == Lower(protocol)
      ensures State() == Link(false, false) && Valid()
    {
      this.name := name;
      this.host := host;
      this.port := port;
      this.protocol := Lower(protocol);
      hasSocket := false;
      connected := false;
    }

    method Connect(o: ConnectOutcome) returns (ok: bool)
      requires Valid()
      modifies this
      ensures Valid()
      ensures ok <==> KnownProtocol(protocol) && o == SocketReady
      ensures State() == AfterConnect(protocol, old(State()), o)
    {
      if protocol == "udp" || protocol == "tcp" {
        match o
        case SocketReady =>
          hasSocket := true;
          connected := true;
          ok := true;
        case SocketCreateFailed =>
          connected := false;
          ok := false;
        case SocketSetupFailed =>
          hasSocket := true;
          connected := false;
          ok := false;
      } else {
        ok := false;
      }
    }

    /** `delivered` is whether `sendto`/`send` returned normally. */
    method Send(data: seq<uint8>, delivered: bool) returns (ok: bool)
      requires Valid()
      modifies this
      ensures Valid()
      ensures ok == SendSucceeds(protocol, old(State()), delivered)
      ensures State() == AfterSend(protocol, old(State()), delivered)
    {
      if !connected || !hasSocket {
        return false;
      }
      if protocol == "udp" || protocol == "tcp" {
        if delivered {
          ok := true;
        } else {
          connected := false;
          ok := false;
        }
      } else {
        ok := true;
      }
    }

    /** One destination's part of routing a message: `send()`, then `connect()` if the send failed. */
    method Forward(data: seq<uint8>, delivered: bool, reconnect: ConnectOutcome) returns (ok: bool)
      requires Valid()
      modifies this
      ensures Valid()
      ensures ok == SendSucceeds(protocol, old(State()), delivered)
      ensures State() == AfterRoute(protocol, old(State()), delivered, reconnect)
    {
      ok := Send(data, delivered);
      if !ok {
        var reconnected := Connect(reconnect);
      }
    }

    method Recv(o: RecvOutcome) returns (data: Option<seq<uint8>>)
      requires Valid()
      modifies this
      ensures Valid() && hasSocket == old(hasSocket)
      ensures !old(connected) || !old(hasSocket) ==> data == None && connected == old(connected)
      ensures old(connected) && old(hasSocket) ==>
        match o
        case Received(bytes) =>
          connected && data == (if protocol == "tcp" && bytes == [] then None else Some(bytes))
        case WouldBlock => connected && data == None
        case RecvFailed => !connected && data == None
    {
      if !connected || !hasSocket {
        return None;
      }
      match o
      case Received(bytes) =>
        if protocol == "tcp" && bytes == [] {
          data := None;
        } else {
          data := Some(bytes);
        }
      case WouldBlock =>
        data := None;
      case RecvFailed =>
        connected := false;
        data := None;
    }

    /** After `close()` no socket is held and the peer is disconnected; closing again changes nothing. */
    method Close()
      modifies this
      ensures State() == Link(false, false) && Valid()
      ensures old(State()) == Link(false, false) ==> unchanged(this)
    {
      if hasSocket {
        hasSocket := false;
      }
      connected := false;
    }
  }

  function Names(ds: seq<TelemetryDestination>): (r: seq<string>)
    ensures |r| == |ds| && forall i :: 0 <= i < |ds| ==> r[i] == ds[i].name
  {
    seq(|ds|, i requires 0 <= i < |ds| => ds[i].name)
  }

  function Protocols(ds: seq<TelemetryDestination>): (r: seq<string>)
    ensures |r| == |ds| && forall i :: 0 <= i < |ds| ==> r[i] == ds[i].protocol
  {
    seq(|ds|, i requires 0 <= i < |ds| => ds[i].protocol)
  }

  /** The flags of each destination, in order. */
  function States(ds: seq<TelemetryDestination>): (r: seq<Link>)
    reads ds
    ensures |r| == |ds| && forall i :: 0 <= i < |ds| ==> r[i] == ds[i].State()
  {
    seq(|ds|, i reads ds requires 0 <= i < |ds| => ds[i].State())
  }

  predicate DistinctNames(names: seq<string>) {
    forall i, j :: 0 <= i < j < |names| ==> names[i] != names[j]
  }

  /** The router's destinations: unique names, each one consistent. */
  ghost predicate DestinationsValid(ds: seq<TelemetryDestination>)
    reads ds
  {
    DistinctNames(Names(ds)) && forall i :: 0 <= i < |ds| ==> ds[i].Valid()
  }

  /** The position of the destination called `name`. */
  function FindName(ds: seq<TelemetryDestination>, name: string): (r: Option<nat>)
    ensures r.Some? ==> r.value < |ds| && ds[r.value].name == name
                        && forall j :: 0 <= j < r.value ==> ds[j].name != name
    ensures r.None? <==> name !in Names(ds)
    decreases |ds|
  {
    if ds == [] then None
    else if ds[0].name == name then Some(0)
    else match FindName(ds[1..], name)
      case None => None
      case Some(k) => Some(k + 1)
  }

  /**
   * The inner loop of the routing body: every destination in turn is offered the bytes;
   * `forwarded` sends succeed and `failed` do not.
   */
  method FanOut(ds: seq<TelemetryDestination>, data: seq<uint8>, deliveries: seq<bool>, reconnects: seq<ConnectOutcome>)
    returns (forwarded: nat, failed: nat)
    requires |deliveries| == |ds| && |reconnects| == |ds|
    requires DestinationsValid(ds)
    modifies ds
    ensures DestinationsValid(ds)
    ensures forwarded == Delivered(Protocols(ds), old(States(ds)), deliveries, |ds|)
    ensures forwarded + failed == |ds|
    ensures forall i :: 0 <= i < |ds| ==>
              ds[i].State() == AfterRoute(ds[i].protocol, old(ds[i].State()), deliveries[i], reconnects[i])
  {
    ghost var links := States(ds);
    ghost var protocols := Protocols(ds);
    assert forall j, k :: 0 <= j < k < |ds| ==> ds[j].name != ds[k].name;
    forwarded, failed := 0, 0;
    var i := 0;
    while i < |ds|
      invariant 0 <= i <= |ds|
      invariant forall j, k :: 0 <= j < k < |ds| ==> ds[j] != ds[k]
      invariant forall j :: 0 <= j < |ds| ==> ds[j].Valid()
      invariant forwarded == Delivered(protocols, links, deliveries, i) && forwarded + failed == i
      invariant forall j :: 0 <= j < i ==> ds[j].State() == AfterRoute(protocols[j], links[j], deliveries[j], reconnects[j])
      invariant forall j :: i <= j < |ds| ==> ds[j].State() == links[j]
    {
      var ok := ForwardAt(ds, i, data, deliveries[i], reconnects[i]);
      if ok {
        forwarded := forwarded + 1;
      } else {
        failed := failed + 1;
      }
      i := i + 1;
    }
  }

  /** Destination `i` forwards the bytes; every other destination is left as it was. */
  method ForwardAt(ds: seq<TelemetryDestination>, i: nat, data: seq<uint8>, delivered: bool, reconnect: ConnectOutcome)
    returns (ok: bool)
    requires i < |ds| && forall j, k :: 0 <= j < k < |ds| ==> ds[j] != ds[k]
    requires forall j :: 0 <= j < |ds| ==> ds[j].Valid()
    modifies ds[i]
    ensures forall j :: 0 <= j < |ds| ==> ds[j].Valid()
    ensures ok == SendSucceeds(ds[i].protocol, old(ds[i].State()), delivered)
    ensures ds[i].State() == AfterRoute(ds[i].protocol, old(ds[i].State()), delivered, reconnect)
    ensures forall j :: 0 <= j < |ds| && j != i ==> ds[j].State() == old(ds[j].State())
  {
    ok := ds[i].Forward(data, delivered, reconnect);
  }

  // ================================================================ the router

  datatype Stats = Stats(messagesReceived: nat, messagesForwarded: nat, errors: nat,
                         lastHeartbeat: Option<real>)

  /** One row of `get_status()["destinations"]`. */
  datatype DestinationView = DestinationView(name: string, host: string, port: int,
                                             protocol: string, connected: bool)

  datatype RouterStatus = RouterStatus(
    running: bool, connected: bool, heartbeatReceived: bool, serialPort: Option<string>,
    baudRate: int, destinations: seq<DestinationView>, stats: Stats, telemetry: Telemetry,
    retryCount: nat, maxRetries: nat, autoRetry: bool)

  datatype AddResult = Added(name: string) | AlreadyExists(name: string) | ConnectFailed
  datatype RemoveResult = Removed(name: string) | NotFound(name: string)
  datatype StartResult = Started | AlreadyRunning | NotConfigured | StartFailed
  datatype StopResult = Stopped | NotRunning

  /** How opening the serial link and waiting for the first HEARTBEAT went. */
  datatype LinkAttempt = OpenFailed | NoHeartbeat | HeartbeatSeen

  datatype RetryAction = NoAction | Reconnected | RetryFailed | GaveUp

  /** `start` gets past the serial link: it opened, and a heartbeat arrived or had already been seen. */
  predicate LinkComesUp(a: LinkAttempt, heartbeatAlready: bool) {
    a != OpenFailed && (heartbeatAlready || a == HeartbeatSeen)
  }

  /** A serial port is configured: set and not the empty string. */
  predicate Configured(port: Option<string>) {
    port.Some? && port.value != ""
  }

  /**
   * The retry counter after a heartbeat timeout: `None` when the router gives up, otherwise
   * the new count (reset to 0 by a successful reconnection).
   */
  function NextRetryCount(count: nat, reconnected: bool): (r: Option<nat>)
    ensures r.None? <==> count >= MAX_RETRIES
    ensures r.Some? ==> r.value <= MAX_RETRIES
  {
    if count < MAX_RETRIES then Some(if reconnected then 0 else count + 1) else None
  }

  /** The retry counter after `n` failed reconnections in a row, or `None` once the router gave up. */
  function CountAfterFailures(count: nat, n: nat): Option<nat>
    decreases n
  {
    if n == 0 then Some(count)
    else match NextRetryCount(count, false)
      case None => None
      case Some(c) => CountAfterFailures(c, n - 1)
  }

  /** From a fresh counter the router tries exactly MAX_RETRIES reconnections before it gives up. */
  lemma {:induction false} GivesUpAfterMaxRetries(count: nat, n: nat)
    requires count + n <= MAX_RETRIES
    ensures CountAfterFailures(count, n) == Some(count + n)
    ensures CountAfterFailures(count, n + 1) == (if count + n == MAX_RETRIES then None else Some(count + n + 1))
    decreases n
  {
    if n > 0 {
      GivesUpAfterMaxRetries(count + 1, n - 1);
    }
  }

  class MAVLinkRouter {
    var serialPort: Option<string>
    var baudRate: int
    var hasConnection: bool
    var destinations: seq<TelemetryDestination>
    var running: bool
    var heartbeatReceived: bool
    const autoRetry: bool
    const maxRetries: nat
    var retryCount: nat
    var stats: Stats
    var telemetry: Telemetry

    /** Destination names are unique, every destination is consistent, retries stay within the limit. */
    ghost predicate Valid()
      reads this, destinations
    {
      && DestinationsValid(destinations)
      && maxRetries == MAX_RETRIES
      && retryCount <= maxRetries
    }

    constructor ()
      ensures Valid() && fresh(this)
      ensures serialPort == None && baudRate == DEFAULT_BAUD_RATE && !hasConnection
      ensures destinations == [] && !running && !heartbeatReceived && autoRetry && retryCount == 0
      ensures stats == Stats(0, 0, 0, None) && telemetry == InitialTelemetry
    {
      serialPort := None;
      baudRate := DEFAULT_BAUD_RATE;
      hasConnection := false;
      destinations := [];
      running := false;
      heartbeatReceived := false;
      autoRetry := true;
      maxRetries := MAX_RETRIES;
      retryCount := 0;
      stats := Stats(0, 0, 0, None);
      telemetry := InitialTelemetry;
    }

    /** `configure(config)`: an absent key takes its default. */
    method Configure(port: Option<string>, baud: Option<int>)
      modifies this`serialPort, this`baudRate
      ensures serialPort == Some(port.GetOr(DEFAULT_SERIAL_PORT))
      ensures baudRate == baud.GetOr(DEFAULT_BAUD_RATE)
    {
      serialPort := Some(port.GetOr(DEFAULT_SERIAL_PORT));
      baudRate := baud.GetOr(DEFAULT_BAUD_RATE);
    }

    method AddDestination(name: string, host: string, port: int, protocol: string, o: ConnectOutcome)
      returns (r: AddResult)
      requires Valid()
      modifies this`destinations
      ensures Valid()
      ensures name in old(Names(destinations)) ==> r == AlreadyExists(name) && destinations == old(destinations)
      ensures name !in old(Names(destinations)) && !(KnownProtocol(Lower(protocol)) && o == SocketReady) ==>
                r == ConnectFailed && destinations == old(destinations)
      ensures name !in old(Names(destinations)) && KnownProtocol(Lower(protocol)) && o == SocketReady ==>
                && r == Added(name)
                && |destinations| == |old(destinations)| + 1
                && destinations[..|old(destinations)|] == old(destinations)
                && var d := destinations[|old(destinations)|];
                   fresh(d) && d.name == name && d.host == host && d.port == port
                   && d.protocol == Lower(protocol) && d.State() == Link(true, true)
    {
      var i := 0;
      while i < |destinations|
        invariant 0 <= i <= |destinations|
        invariant forall j :: 0 <= j < i ==> destinations[j].name != name
      {
        if destinations[i].name == name {
          return AlreadyExists(name);
        }
        i := i + 1;
      }
      var d := new TelemetryDestination(name, host, port, protocol);
      var ok := d.Connect(o);
      if ok {
        destinations := destinations + [d];
        r := Added(name);
      } else {
        r := ConnectFailed;
      }
    }

    method RemoveDestination(name: string) returns (r: RemoveResult)
      requires Valid()
      modifies this`destinations, set i | 0 <= i < |destinations| && destinations[i].name == name :: destinations[i]
      ensures Valid()
      ensures match FindName(old(destinations), name)
        case None => r == NotFound(name) && destinations == old(destinations)
        case Some(k) =>
          && r == Removed(name)
          && destinations == old(destinations[..k] + destinations[k + 1..])
          && old(destinations)[k].State() == Link(false, false)
    {
      var i := 0;
      while i < |destinations|
        invariant 0 <= i <= |destinations|
        invariant forall j :: 0 <= j < i ==> destinations[j].name != name
      {
        var d := destinations[i];
        if d.name == name {
          d.Close();
          destinations := destinations[..i] + destinations[i + 1..];
          return Removed(name);
        }
        i := i + 1;
      }
      r := NotFound(name);
    }

    /** The reconnect pass of `start` and `_reconnect`: every disconnected destination calls `connect()`. */
    method ReviveDestinations(outcomes: seq<ConnectOutcome>)
      requires Valid() && |outcomes| == |destinations|
      modifies destinations
      ensures Valid()
      ensures forall i :: 0 <= i < |destinations| ==>
                destinations[i].State() == Revive(destinations[i].protocol, old(destinations[i].State()), outcomes[i])
    {
      var i := 0;
      while i < |destinations|
        invariant 0 <= i <= |destinations|
        invariant Valid()
        invariant forall j :: 0 <= j < i ==>
                    destinations[j].State() == Revive(destinations[j].protocol, old(destinations[j].State()), outcomes[j])
        invariant forall j :: i <= j < |destinations| ==> destinations[j].State() == old(destinations[j].State())
      {
        var d := destinations[i];
        if !d.connected {
          var ok := d.Connect(outcomes[i]);
        }
        i := i + 1;
      }
    }

    method Start(a: LinkAttempt, now: real, reconnects: seq<ConnectOutcome>) returns (r: StartResult)
      requires Valid() && |reconnects| == |destinations|
      modifies this, destinations
      ensures Valid() && destinations == old(destinations)
      ensures old(running) ==> r == AlreadyRunning && unchanged(this) && States(destinations) == old(States(destinations))
      ensures !old(running) && !Configured(old(serialPort)) ==>
                r == NotConfigured && unchanged(this) && States(destinations) == old(States(destinations))
      ensures !old(running) && Configured(old(serialPort)) && !LinkComesUp(a, old(heartbeatReceived)) ==>
                && r == StartFailed && !running && !hasConnection
                && heartbeatReceived == old(heartbeatReceived) && stats == old(stats)
                && retryCount == old(retryCount) && States(destinations) == old(States(destinations))
      ensures !old(running) && Configured(old(serialPort)) && LinkComesUp(a, old(heartbeatReceived)) ==>
                && r == Started && running && hasConnection && heartbeatReceived && retryCount == 0
                && stats == old(stats).(lastHeartbeat := if old(heartbeatReceived) then old(stats.lastHeartbeat) else Some(now))
                && forall i :: 0 <= i < |destinations| ==>
                     destinations[i].State() == Revive(destinations[i].protocol, old(destinations[i].State()), reconnects[i])
      ensures telemetry == old(telemetry)
      ensures serialPort == old(serialPort) && baudRate == old(baudRate)
    {
      if running {
        return AlreadyRunning;
      }
      if serialPort.None? || serialPort.value == "" {
        return NotConfigured;
      }
      if a == OpenFailed {
        running := false;
        hasConnection := false;
        return StartFailed;
      }
      hasConnection := true;
      if !heartbeatReceived {
        if a == HeartbeatSeen {
          heartbeatReceived := true;
          stats := stats.(lastHeartbeat := Some(now));
        } else {
          running := false;
          hasConnection := false;
          return StartFailed;
        }
      }
      ReviveDestinations(reconnects);
      running := true;
      retryCount := 0;
      r := Started;
    }

    method Stop() returns (r: StopResult)
      requires Valid()
      modifies this, destinations
      ensures Valid() && destinations == old(destinations)
      ensures !old(running) ==> r == NotRunning && unchanged(this) && States(destinations) == old(States(destinations))
      ensures old(running) ==>
                && r == Stopped && !running && !heartbeatReceived && !hasConnection
                && stats == old(stats) && retryCount == old(retryCount)
                && forall i :: 0 <= i < |destinations| ==> destinations[i].State() == Link(false, false)
      ensures telemetry == old(telemetry)
      ensures serialPort == old(serialPort) && baudRate == old(baudRate)
    {
      if !running {
        return NotRunning;
      }
      running := false;
      hasConnection := false;
      var i := 0;
      while i < |destinations|
        invariant 0 <= i <= |destinations|
        invariant Valid() && destinations == old(destinations)
        invariant !running && !hasConnection && stats == old(stats) && retryCount == old(retryCount)
        invariant telemetry == old(telemetry) && serialPort == old(serialPort) && baudRate == old(baudRate)
        invariant heartbeatReceived == old(heartbeatReceived)
        invariant forall j :: 0 <= j < i ==> destinations[j].State() == Link(false, false)
      {
        destinations[i].Close();
        i := i + 1;
      }
      heartbeatReceived := false;
      r := Stopped;
    }

    /** `_parse_telemetry`: the fields of the message's type are written one by one. */
    method ParseTelemetry(msg: Message)
      modifies this`telemetry
      ensures telemetry == ApplyMessage(old(telemetry), msg.payload)
    {
      match msg.payload
      case GlobalPositionInt(lat, lon, alt, hdg) =>
        telemetry := telemetry.(latitude := Some(lat as real / 10000000.0));
        telemetry := telemetry.(longitude := Some(lon as real / 10000000.0));
        telemetry := telemetry.(altitude := Some(alt as real / 1000.0));
        telemetry := telemetry.(heading := Some(hdg as real / 100.0));
      case VfrHud(groundspeed, airspeed, heading, throttle, climb) =>
        telemetry := telemetry.(groundspeed := Some(groundspeed));
        telemetry := telemetry.(airspeed := Some(airspeed));
        telemetry := telemetry.(heading := Some(heading as real));
        telemetry := telemetry.(throttle := Some(throttle));
        telemetry := telemetry.(climbRate := Some(climb));
      case SysStatus(voltage, current, remaining) =>
        telemetry := telemetry.(batteryVoltage := Some(voltage as real / 1000.0));
        telemetry := telemetry.(batteryCurrent := Some(current as real / 100.0));
        telemetry := telemetry.(batteryRemaining := Some(remaining));
      case GpsRawInt(fixType, satellites) =>
        telemetry := telemetry.(gpsFixType := Some(fixType));
        telemetry := telemetry.(gpsSatellites := Some(satellites));
      case Heartbeat(baseMode, customMode) =>
        telemetry := telemetry.(armed := (baseMode as bv8) & MAV_MODE_FLAG_SAFETY_ARMED != 0);
        telemetry := telemetry.(mode := Some(customMode));
      case OtherType(_) =>
    }

    /**
     * The body of the routing loop for one received message: count it, update the
     * telemetry, then offer its bytes to every destination in turn. `deliveries[i]` is
     * whether destination i's socket call returned normally, `reconnects[i]` the outcome
     * of the `connect()` that follows a failed send.
     */
    method RouteMessage(msg: Message, now: real, deliveries: seq<bool>, reconnects: seq<ConnectOutcome>)
      requires Valid() && |deliveries| == |destinations| && |reconnects| == |destinations|
      modifies this`stats, this`telemetry, destinations
      ensures Valid()
      ensures stats.messagesReceived == old(stats.messagesReceived) + 1
      ensures stats.messagesForwarded
                == old(stats.messagesForwarded) + Delivered(Protocols(destinations), old(States(destinations)), deliveries, |destinations|)
      ensures stats.errors
                == old(stats.errors) + |destinations| - Delivered(Protocols(destinations), old(States(destinations)), deliveries, |destinations|)
      ensures stats.lastHeartbeat == if msg.payload.Heartbeat? then Some(now) else old(stats.lastHeartbeat)
      ensures telemetry == ApplyMessage(old(telemetry), msg.payload)
      ensures forall i :: 0 <= i < |destinations| ==>
                destinations[i].State()
                  == AfterRoute(destinations[i].protocol, old(destinations[i].State()), deliveries[i], reconnects[i])
    {
      stats := stats.(messagesReceived := stats.messagesReceived + 1);
      ParseTelemetry(msg);
      if msg.payload.Heartbeat? {
        stats := stats.(lastHeartbeat := Some(now));
      }
      var forwarded, failed := FanOut(destinations, msg.msgbuf, deliveries, reconnects);
      stats := stats.(messagesForwarded := stats.messagesForwarded + forwarded, errors := stats.errors + failed);
    }

    /**
     * `_reconnect`: drop the serial link, reopen it and wait for a heartbeat; on success
     * latch the heartbeat and reconnect the disconnected destinations.
     */
    method Reconnect(a: LinkAttempt, now: real, reconnects: seq<ConnectOutcome>) returns (ok: bool)
      requires Valid() && |reconnects| == |destinations|
      modifies this`hasConnection, this`heartbeatReceived, this`stats, destinations
      ensures Valid()
      ensures ok <==> a == HeartbeatSeen
      ensures hasConnection == ok
      ensures ok ==> heartbeatReceived && stats == old(stats).(lastHeartbeat := Some(now))
      ensures ok ==> forall i :: 0 <= i < |destinations| ==>
                destinations[i].State() == Revive(destinations[i].protocol, old(destinations[i].State()), reconnects[i])
      ensures !ok ==> heartbeatReceived == old(heartbeatReceived) && stats == old(stats) && States(destinations) == old(States(destinations))
    {
      hasConnection := false;
      if a != HeartbeatSeen {
        return false;
      }
      hasConnection := true;
      heartbeatReceived := true;
      stats := stats.(lastHeartbeat := Some(now));
      ReviveDestinations(reconnects);
      ok := true;
    }

    /**
     * The heartbeat-timeout branch of the routing loop. `timedOut` is the clock's verdict
     * (this pass is not idle and the last heartbeat is older than the timeout).
     */
    method OnHeartbeatCheck(timedOut: bool, a: LinkAttempt, now: real, reconnects: seq<ConnectOutcome>)
      returns (action: RetryAction)
      requires Valid() && |reconnects| == |destinations|
      modifies this`retryCount, this`running, this`hasConnection, this`heartbeatReceived, this`stats, destinations
      ensures Valid()
      ensures !(autoRetry && old(stats.lastHeartbeat).Some? && timedOut) ==>
                action == NoAction && unchanged(this) && States(destinations) == old(States(destinations))
      ensures autoRetry && old(stats.lastHeartbeat).Some? && timedOut ==>
                match NextRetryCount(old(retryCount), a == HeartbeatSeen)
                case None =>
                  && action == GaveUp && !running && retryCount == old(retryCount)
                  && hasConnection == old(hasConnection) && heartbeatReceived == old(heartbeatReceived)
                  && stats == old(stats) && States(destinations) == old(States(destinations))
                case Some(c) =>
                  && retryCount == c && running == old(running)
                  && action == (if a == HeartbeatSeen then Reconnected else RetryFailed)
                  && hasConnection == (a == HeartbeatSeen)
                  && AfterReconnect(a, now, reconnects, old(heartbeatReceived), old(stats), old(States(destinations)))
    {
      if !(autoRetry && stats.lastHeartbeat.Some? && timedOut) {
        return NoAction;
      }
      if retryCount < maxRetries {
        retryCount := retryCount + 1;
        var ok := Reconnect(a, now, reconnects);
        if ok {
          retryCount := 0;
          action := Reconnected;
        } else {
          action := RetryFailed;
        }
      } else {
        running := false;
        action := GaveUp;
      }
    }

    /**
     * The state `_reconnect` leaves behind, from the heartbeat latch, statistics and
     * destination states it started from: on a heartbeat the latch is set, the heartbeat
     * stamped and the dropped destinations revived; otherwise all three are kept.
     */
    ghost predicate AfterReconnect(a: LinkAttempt, now: real, reconnects: seq<ConnectOutcome>,
                                   heartbeat0: bool, stats0: Stats, links0: seq<Link>)
      requires |reconnects| == |destinations| == |links0|
      reads this, destinations
    {
      if a == HeartbeatSeen then
        && heartbeatReceived && stats == stats0.(lastHeartbeat := Some(now))
        && forall i :: 0 <= i < |destinations| ==>
             destinations[i].State() == Revive(destinations[i].protocol, links0[i], reconnects[i])
      else
        heartbeatReceived == heartbeat0 && stats == stats0 && States(destinations) == links0
    }

    /** The exception branch of the routing loop: count the error and maybe retry the link. */
    method OnRoutingError(a: LinkAttempt, now: real, reconnects: seq<ConnectOutcome>) returns (retried: bool)
      requires Valid() && |reconnects| == |destinations|
      modifies this`retryCount, this`hasConnection, this`heartbeatReceived, this`stats, destinations
      ensures Valid()
      ensures retried <==> autoRetry && old(retryCount) < maxRetries
      ensures retryCount == if retried then old(retryCount) + 1 else old(retryCount)
      ensures !retried ==>
                && stats == old(stats).(errors := old(stats.errors) + 1)
                && hasConnection == old(hasConnection) && heartbeatReceived == old(heartbeatReceived)
                && States(destinations) == old(States(destinations))
      ensures retried ==>
                && hasConnection == (a == HeartbeatSeen)
                && AfterReconnect(a, now, reconnects, old(heartbeatReceived),
                                  old(stats).(errors := old(stats.errors) + 1), old(States(destinations)))
    {
      stats := stats.(errors := stats.errors + 1);
      retried := autoRetry && retryCount < maxRetries;
      if retried {
        retryCount := retryCount + 1;
        var ok := Reconnect(a, now, reconnects);
      }
    }

    /** `get_status()`: a read-only snapshot. */
    function Status(): (s: RouterStatus)
      reads this, destinations
      ensures s.running == running && s.heartbeatReceived == heartbeatReceived && s.connected == hasConnection
      ensures s.serialPort == serialPort && s.baudRate == baudRate
      ensures s.stats == stats && s.telemetry == telemetry
      ensures s.retryCount == retryCount && s.maxRetries == maxRetries && s.autoRetry == autoRetry
      ensures |s.destinations| == |destinations|
      ensures forall i :: 0 <= i < |destinations| ==>
                && s.destinations[i].name == destinations[i].name && s.destinations[i].connected == destinations[i].connected
                && s.destinations[i].host == destinations[i].host && s.destinations[i].port == destinations[i].port
                && s.destinations[i].protocol == destinations[i].protocol
      ensures Valid() ==> forall i, j :: 0 <= i < j < |s.destinations| ==> s.destinations[i].name != s.destinations[j].name
    {
      var views := seq(|destinations|, i reads this, destinations requires 0 <= i < |destinations| =>
        var d := destinations[i];
        DestinationView(d.name, d.host, d.port, d.protocol, d.connected));
      RouterStatus(running, hasConnection, heartbeatReceived, serialPort, baudRate, views, stats,
                   telemetry, retryCount, maxRetries, autoRetry)
    }
  }
}
