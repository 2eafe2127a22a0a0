/**
 * The VPN manager (backend/app/services/vpn_manager.py): the ZeroTier, Tailscale and
 * WireGuard address extraction, and the provider/status/address state that the
 * `configure_*` and `disconnect*` calls change. Every subprocess is a call of the
 * `Runner` passed in; the thirty `listnetworks` polls of the ZeroTier join are a
 * sequence of results, and `json.loads` is the `decode` function passed in.
 */
module VpnManager {
  import opened Wrappers
  import opened Strings
  import opened Commands

  datatype Provider = ZeroTier | Tailscale | WireGuard

  /** The enum's string value. */
  function ProviderName(p: Provider): string {
    match p
    case ZeroTier => "zerotier"
    case Tailscale => "tailscale"
    case WireGuard => "wireguard"
  }

  // ================================================================ ZeroTier address

  /** One entry of `zerotier-cli listnetworks -j`: its "id" and "assignedAddresses", when present. */
  datatype ZtNetwork = ZtNetwork(id: Option<string>, assignedAddresses: Option<seq<string>>)

  /** `network.get("assignedAddresses", [])`. */
  function AddressesOf(n: ZtNetwork): seq<string> {
    n.assignedAddresses.GetOr([])
  }

  /**
   * The IPv4 part of an assigned address such as `10.147.17.5/24`: the text before the
   * first "/", provided there is a "/" and that text has no ":".
   */
  function AddrIpv4(addr: string): (r: Option<string>)
    ensures r.Some? <==> '/' in addr && ':' !in addr[..IndexOfChar(addr, '/').value]
    ensures r.Some? ==> StartsWith(addr, r.value + "/") && '/' !in r.value && ':' !in r.value
  {
    if '/' !in addr then None
    else
      SplitFirst(addr, '/', IndexOfChar(addr, '/').value);
      var head := Split(addr, '/')[0];
      if ':' in head then None
      else
        assert addr[..|head| + 1] == head + "/";
        Some(head)
  }

  /** The first address of the list with an IPv4 part, and that part. */
  function FirstIpv4(addrs: seq<string>): (r: Option<string>)
    ensures r.Some? ==> '/' !in r.value && ':' !in r.value
  {
    if addrs == [] then None
    else if AddrIpv4(addrs[0]).Some? then AddrIpv4(addrs[0])
    else FirstIpv4(addrs[1..])
  }

  /** `FirstIpv4` finds an address exactly when one has an IPv4 part, and it finds the leftmost. */
  lemma {:induction false} FirstIpv4Leftmost(addrs: seq<string>)
    ensures FirstIpv4(addrs).None? <==> forall j :: 0 <= j < |addrs| ==> AddrIpv4(addrs[j]).None?
    ensures FirstIpv4(addrs).Some? ==>
              exists j :: 0 <= j < |addrs| && AddrIpv4(addrs[j]) == FirstIpv4(addrs)
                          && forall k :: 0 <= k < j ==> AddrIpv4(addrs[k]).None?
  {
    if addrs != [] && AddrIpv4(addrs[0]).None? {
      FirstIpv4Leftmost(addrs[1..]);
      assert forall j :: 1 <= j < |addrs| ==> addrs[j] == addrs[1..][j - 1];
      if FirstIpv4(addrs).Some? {
        var j :| 0 <= j < |addrs[1..]| && AddrIpv4(addrs[1..][j]) == FirstIpv4(addrs)
                 && forall k :: 0 <= k < j ==> AddrIpv4(addrs[1..][k]).None?;
        assert AddrIpv4(addrs[j + 1]) == FirstIpv4(addrs);
      }
    }
  }

  /**
   * The address `_get_zerotier_ip` returns from the decoded network list: the networks with
   * the wanted id are tried in order, and the first of them with an IPv4 address gives it.
   */
  function ZeroTierIp(nets: seq<ZtNetwork>, networkId: string): (r: Option<string>)
    ensures r.Some? ==> '/' !in r.value && ':' !in r.value
  {
    if nets == [] then None
    else if Offers(nets[0], networkId) then FirstIpv4(AddressesOf(nets[0]))
    else ZeroTierIp(nets[1..], networkId)
  }

  /** A network with the wanted id that has an address with an IPv4 part. */
  predicate Offers(n: ZtNetwork, networkId: string) {
    n.id == Some(networkId) && FirstIpv4(AddressesOf(n)).Some?
  }

  /** ... and the network giving it is the first one with the wanted id that has such an address. */
  lemma {:induction false} ZeroTierIpLeftmost(nets: seq<ZtNetwork>, networkId: string)
    ensures ZeroTierIp(nets, networkId).None? <==> forall i :: 0 <= i < |nets| ==> !Offers(nets[i], networkId)
    ensures ZeroTierIp(nets, networkId).Some? ==>
              exists i :: 0 <= i < |nets| && Offers(nets[i], networkId)
                          && FirstIpv4(AddressesOf(nets[i])) == ZeroTierIp(nets, networkId)
                          && forall k :: 0 <= k < i ==> !Offers(nets[k], networkId)
  {
    if nets != [] && !Offers(nets[0], networkId) {
      var tail := nets[1..];
      ZeroTierIpLeftmost(tail, networkId);
      assert forall i :: 1 <= i < |nets| ==> nets[i] == tail[i - 1];
      if ZeroTierIp(tail, networkId).Some? {
        var i :| 0 <= i < |tail| && Offers(tail[i], networkId)
                 && FirstIpv4(AddressesOf(tail[i])) == ZeroTierIp(tail, networkId)
                 && forall k :: 0 <= k < i ==> !Offers(tail[k], networkId);
        assert nets[i + 1] == tail[i];
      }
    }
  }

  /** `_get_zerotier_ip` for one `listnetworks -j` result; output that does not decode gives `None`. */
  function ZeroTierIpOf(result: CmdResult, decode: string -> Option<seq<ZtNetwork>>, networkId: string): Option<string> {
    if result.returncode != 0 then None
    else match decode(result.stdout)
      case None => None
      case Some(nets) => ZeroTierIp(nets, networkId)
  }

  /** The nested loops of `_get_zerotier_ip`, returning at the first IPv4 address they meet. */
  method FindZeroTierIp(result: CmdResult, decode: string -> Option<seq<ZtNetwork>>, networkId: string)
    returns (ip: Option<string>)
    ensures ip == ZeroTierIpOf(result, decode, networkId)
  {
    if result.returncode != 0 {
      return None;
    }
    var decoded := decode(result.stdout);
    if decoded.None? {
      return None;
    }
    var networks := decoded.value;
    var i := 0;
    while i < |networks|
      invariant 0 <= i <= |networks|
      invariant ZeroTierIp(networks[i..], networkId) == ZeroTierIp(networks, networkId)
    {
      assert networks[i..][1..] == networks[i + 1..];
      if networks[i].id == Some(networkId) {
        var addresses := AddressesOf(networks[i]);
        var j := 0;
        while j < |addresses|
          invariant 0 <= j <= |addresses|
          invariant FirstIpv4(addresses[j..]) == FirstIpv4(addresses)
        {
          assert addresses[j..][1..] == addresses[j + 1..];
          var addr := addresses[j];
          if '/' in addr && ':' !in Split(addr, '/')[0] {
            return Some(Split(addr, '/')[0]);
          }
          j := j + 1;
        }
      }
      i := i + 1;
    }
    return None;
  }

  // ================================================================ dotted quads

  /** After `\d+\.` matched from `p`: the position past the dot. */
  function DigitsDot(s: string, p: nat): (r: Option<nat>)
    requires p <= |s|
    ensures r.Some? ==> p + 2 <= r.value <= |s| && s[r.value - 1] == '.' && IsDigits(s[p..r.value - 1])
  {
    var e := RunEnd(s, p, IsDigit);
    if e == p || e == |s| || s[e] != '.' then None else Some(e + 1)
  }

  /**
   * The end of the match of `\d+\.\d+\.\d+\.\d+` from `p`. The runs are maximal: a shorter
   * run of digits is followed by a digit and never by the dot the pattern needs next.
   */
  function QuadEnd(s: string, p: nat): (r: Option<nat>)
    requires p <= |s|
    ensures r.Some? ==> p < r.value <= |s|
  {
    match DigitsDot(s, p)
    case None => None
    case Some(p1) =>
      match DigitsDot(s, p1)
      case None => None
      case Some(p2) =>
        match DigitsDot(s, p2)
        case None => None
        case Some(p3) =>
          var e := RunEnd(s, p3, IsDigit);
          if e == p3 then None else Some(e)
  }

  /** `re.match(r"^\d+\.\d+\.\d+\.\d+$", t)`: the whole text is four digit runs joined by dots. */
  predicate IsDottedQuad(t: string) {
    QuadEnd(t, 0) == Some(|t|)
  }

  /** A run of digits that stops at a non-digit (or the end) is what `RunEnd` measures. */
  lemma RunEndOfDigits(s: string, p: nat, n: nat)
    requires p + n <= |s| && forall k :: p <= k < p + n ==> IsDigit(s[k])
    requires p + n == |s| || !IsDigit(s[p + n])
    ensures RunEnd(s, p, IsDigit) == p + n
  {
  }

  /** What the quad pattern matched from `p`: four digit runs and the three dots between them. */
  lemma QuadEndParts(s: string, p: nat) returns (a: string, b: string, c: string, d: string)
    requires p <= |s| && QuadEnd(s, p).Some?
    ensures IsDigits(a) && IsDigits(b) && IsDigits(c) && IsDigits(d)
    ensures s[p..QuadEnd(s, p).value] == a + "." + b + "." + c + "." + d
  {
    var p1 := DigitsDot(s, p).value;
    var p2 := DigitsDot(s, p1).value;
    var p3 := DigitsDot(s, p2).value;
    var e := QuadEnd(s, p).value;
    a, b, c, d := s[p..p1 - 1], s[p1..p2 - 1], s[p2..p3 - 1], s[p3..e];
    assert IsDigits(d);
    SliceAtDots(s, p, p1, p2, p3, e);
  }

  /** A slice with dots just before `p1`, `p2` and `p3` is its four pieces joined by dots. */
  lemma SliceAtDots(s: string, p: nat, p1: nat, p2: nat, p3: nat, e: nat)
    requires p < p1 <= p2 - 1 && p2 <= p3 - 1 && p3 <= e <= |s|
    requires s[p1 - 1] == '.' && s[p2 - 1] == '.' && s[p3 - 1] == '.'
    ensures s[p..e] == s[p..p1 - 1] + "." + s[p1..p2 - 1] + "." + s[p2..p3 - 1] + "." + s[p3..e]
  {
    assert s[p..e] == s[p..p1 - 1] + [s[p1 - 1]] + s[p1..p2 - 1] + [s[p2 - 1]] + s[p2..p3 - 1] + [s[p3 - 1]] + s[p3..e];
  }

  /** A digit run followed by a dot at `p` is what `DigitsDot` steps over. */
  lemma DigitsDotAt(s: string, p: nat, a: string)
    requires IsDigits(a) && p + |a| < |s| && s[p..p + |a| + 1] == a + "."
    ensures DigitsDot(s, p) == Some(p + |a| + 1)
  {
    assert forall k :: p <= k < p + |a| ==> s[k] == s[p..p + |a| + 1][k - p];
    assert s[p + |a|] == s[p..p + |a| + 1][|a|];
    RunEndOfDigits(s, p, |a|);
  }

  /** A digit run that ends the text is what `RunEnd` measures from its start. */
  lemma DigitsToEnd(s: string, p: nat, d: string)
    requires IsDigits(d) && p <= |s| && s[p..] == d
    ensures RunEnd(s, p, IsDigit) == |s|
  {
    assert forall k :: p <= k < |s| ==> s[k] == s[p..][k - p];
    RunEndOfDigits(s, p, |d|);
  }

  /** Where the four runs and the three dots of `a.b.c.d` sit. */
  lemma QuadLayout(a: string, b: string, c: string, d: string)
    ensures var t, p1, p2, p3 := a + "." + b + "." + c + "." + d, |a| + 1, |a| + |b| + 2, |a| + |b| + |c| + 3;
            && t[0..p1] == a + "." && t[p1..p2] == b + "." && t[p2..p3] == c + "." && t[p3..] == d
  {
    var a', b', c' := a + ".", b + ".", c + ".";
    var t := a' + b' + c' + d;
    assert t == a + "." + b + "." + c + "." + d;
    assert t[0..|a'|] == a';
    assert t[|a'|..|a'| + |b'|] == b';
    assert t[|a'| + |b'|..|a'| + |b'| + |c'|] == c';
  }

  /** Four digit runs joined by dots are a dotted quad. */
  lemma QuadOfParts(a: string, b: string, c: string, d: string)
    requires IsDigits(a) && IsDigits(b) && IsDigits(c) && IsDigits(d)
    ensures IsDottedQuad(a + "." + b + "." + c + "." + d)
  {
    var t, p1, p2, p3 := a + "." + b + "." + c + "." + d, |a| + 1, |a| + |b| + 2, |a| + |b| + |c| + 3;
    QuadLayout(a, b, c, d);
    DigitsDotAt(t, 0, a);
    DigitsDotAt(t, p1, b);
    DigitsDotAt(t, p2, c);
    DigitsToEnd(t, p3, d);
  }

  /** And a dotted quad is exactly that. */
  lemma QuadParts(t: string) returns (a: string, b: string, c: string, d: string)
    requires IsDottedQuad(t)
    ensures IsDigits(a) && IsDigits(b) && IsDigits(c) && IsDigits(d)
    ensures t == a + "." + b + "." + c + "." + d
  {
    a, b, c, d := QuadEndParts(t, 0);
    assert t[0..|t|] == t;
  }

  /** The quad the search patterns capture from `p` passes the whole-text check of Tailscale's address. */
  lemma CapturedQuad(s: string, p: nat)
    requires p <= |s| && QuadEnd(s, p).Some?
    ensures IsDottedQuad(s[p..QuadEnd(s, p).value])
  {
    var a, b, c, d := QuadEndParts(s, p);
    QuadOfParts(a, b, c, d);
  }

  // ================================================================ Tailscale address

  /** `_get_tailscale_ip` for the `tailscale ip -4` result. */
  function TailscaleIpOf(result: CmdResult): (r: Option<string>)
    ensures r.Some? <==> result.returncode == 0 && IsDottedQuad(Strip(result.stdout))
    ensures r.Some? ==> r.value == Strip(result.stdout) && r.value != ""
  {
    if result.returncode == 0 then
      var ip := Strip(result.stdout);
      if ip != "" && IsDottedQuad(ip) then Some(ip) else None
    else None
  }

  // ================================================================ WireGuard address

  /** The leftmost `i` at or after `from` where `at` matches, and what it captured there. */
  function Search(s: string, from: nat, at: nat -> Option<string>): (r: Option<string>)
    requires from <= |s|
    ensures r.Some? ==> exists i :: from <= i <= |s| && at(i) == r && forall k :: from <= k < i ==> at(k).None?
    ensures r.None? ==> forall i :: from <= i <= |s| ==> at(i).None?
    decreases |s| - from
  {
    if at(from).Some? then at(from)
    else if from == |s| then None
    else Search(s, from + 1, at)
  }

  /** The capture of `inet (\d+\.\d+\.\d+\.\d+)` when its match starts at `i`. */
  function InetAt(s: string, i: nat): (r: Option<string>)
    ensures r.Some? ==> IsDottedQuad(r.value)
  {
    if !OccursAt(s, "inet ", i) then None
    else match QuadEnd(s, i + 5)
      case None => None
      case Some(e) =>
        CapturedQuad(s, i + 5);
        Some(s[i + 5..e])
  }

  /** The capture of `Address\s*=\s*(\d+\.\d+\.\d+\.\d+)` when its match starts at `i`. */
  function AddressAt(s: string, i: nat): (r: Option<string>)
    ensures r.Some? ==> IsDottedQuad(r.value)
  {
    if !OccursAt(s, "Address", i) then None
    else
      var p := RunEnd(s, i + 7, IsSpace);
      if p == |s| || s[p] != '=' then None
      else
        var q := RunEnd(s, p + 1, IsSpace);
        match QuadEnd(s, q)
        case None => None
        case Some(e) =>
          CapturedQuad(s, q);
          Some(s[q..e])
  }

  /**
   * `_get_wireguard_ip`: the first `inet` address of `ip addr show wg0`, else the
   * `Address =` line of the configuration file (`None` when there is no file).
   */
  function WireGuardIpOf(show: CmdResult, configFile: Option<string>): (r: Option<string>)
    ensures r.Some? ==> IsDottedQuad(r.value)
    ensures show.returncode == 0 && Search(show.stdout, 0, (i: nat) => InetAt(show.stdout, i)).Some? ==>
              r == Search(show.stdout, 0, (i: nat) => InetAt(show.stdout, i))
    ensures (show.returncode != 0 || Search(show.stdout, 0, (i: nat) => InetAt(show.stdout, i)).None?) ==>
              r == if configFile.None? then None else Search(configFile.value, 0, (i: nat) => AddressAt(configFile.value, i))
  {
    var inet := if show.returncode == 0 then Search(show.stdout, 0, (i: nat) => InetAt(show.stdout, i)) else None;
    if inet.Some? then inet
    else if configFile.Some? then Search(configFile.value, 0, (i: nat) => AddressAt(configFile.value, i))
    else None
  }

  // ================================================================ the manager

  datatype VpnReply =
    | VpnConnected(provider: Provider, networkId: Option<string>, ip: string)
    | VpnDisconnected
    | VpnError(message: string)

  datatype VpnStatus = VpnStatus(provider: Option<string>, status: string, ipAddress: Option<string>,
                                 networkId: Option<string>)

  /** The `status` attribute, which holds one of two strings. */
  datatype LinkStatus = Connected | Disconnected

  function StatusName(s: LinkStatus): string {
    match s
    case Connected => "connected"
    case Disconnected => "disconnected"
  }

  /** `range(max_attempts)` of the ZeroTier join: thirty polls, two seconds apart. */
  const MAX_ATTEMPTS: nat := 30
  const INSTALL_FAILED := "Installation failed: "
  const JOIN_FAILED := "Failed to join network: "
  const NO_ZEROTIER_IP := "Joined network but no IP assigned. Check network authorization."
  const CONNECT_FAILED := "Failed to connect: "
  const NO_TAILSCALE_IP := "Connected but no IP assigned"
  const WIREGUARD_FAILED := "Failed to start WireGuard: "
  const NO_WIREGUARD_IP := "Connected but no IP found"
  const NO_NETWORK := "No network to disconnect from"
  const NO_CONNECTION := "No active VPN connection"

  const ZEROTIER_INSTALL: seq<string> := ["curl", "-s", "https://install.zerotier.com", "|", "sudo", "bash"]
  const TAILSCALE_INSTALL: seq<string> := ["curl", "-fsSL", "https://tailscale.com/install.sh", "|", "sh"]
  const WIREGUARD_INSTALL: seq<string> :=
    ["sudo", "apt-get", "update", "&&", "sudo", "apt-get", "install", "-y", "wireguard"]

  function ZeroTierJoin(networkId: string): seq<string> { ["sudo", "zerotier-cli", "join", networkId] }
  function ZeroTierLeave(networkId: string): seq<string> { ["sudo", "zerotier-cli", "leave", networkId] }
  function TailscaleUp(authKey: string): seq<string> { ["sudo", "tailscale", "up", "--authkey=" + authKey] }
  const TAILSCALE_IP: seq<string> := ["tailscale", "ip", "-4"]
  const TAILSCALE_DOWN: seq<string> := ["sudo", "tailscale", "down"]
  const WIREGUARD_UP: seq<string> := ["sudo", "wg-quick", "up", "wg0"]
  const WIREGUARD_SHOW: seq<string> := ["ip", "addr", "show", "wg0"]
  const WIREGUARD_DOWN: seq<string> := ["sudo", "wg-quick", "down", "wg0"]

  /**
   * The installation step of every `configure_*`: nothing when `which tool` succeeds or the
   * install command does, otherwise the failed installation's reply, which `configure_*` returns.
   */
  function InstallFailure(run: Runner, tool: string, install: seq<string>): (r: Option<VpnReply>)
    ensures r.Some? <==> run(["which", tool]).returncode != 0 && run(install).returncode != 0
    ensures r.Some? ==> r.value == VpnError(INSTALL_FAILED + run(install).stderr)
  {
    if run(["which", tool]).returncode == 0 then None
    else
      var result := run(install);
      if result.returncode == 0 then None else Some(VpnError(INSTALL_FAILED + result.stderr))
  }

  /** Python's truth value of an optional address: present and not empty. */
  predicate Assigned(ip: Option<string>) {
    ip.Some? && ip.value != ""
  }

  /** The first of the polls from `from` on that yields an address. */
  function FirstAssigned(polls: seq<CmdResult>, decode: string -> Option<seq<ZtNetwork>>, networkId: string,
                         from: nat): (r: Option<nat>)
    requires from <= |polls|
    ensures r.Some? ==> from <= r.value < |polls| && Assigned(ZeroTierIpOf(polls[r.value], decode, networkId))
    ensures forall k :: from <= k < |polls| && (r.None? || k < r.value) ==>
              !Assigned(ZeroTierIpOf(polls[k], decode, networkId))
    decreases |polls| - from
  {
    if from == |polls| then None
    else if Assigned(ZeroTierIpOf(polls[from], decode, networkId)) then Some(from)
    else FirstAssigned(polls, decode, networkId, from + 1)
  }

  /** What `configure_zerotier(network_id)` replies. */
  function ZeroTierReply(networkId: string, run: Runner, polls: seq<CmdResult>,
                         decode: string -> Option<seq<ZtNetwork>>): (r: VpnReply)
    requires |polls| == MAX_ATTEMPTS
  {
    match InstallFailure(run, "zerotier-cli", ZEROTIER_INSTALL)
    case Some(failure) => failure
    case None =>
      var join := run(ZeroTierJoin(networkId));
      if join.returncode != 0 then VpnError(JOIN_FAILED + join.stderr)
      else match FirstAssigned(polls, decode, networkId, 0)
        case None => VpnError(NO_ZEROTIER_IP)
        case Some(k) => VpnConnected(ZeroTier, Some(networkId), ZeroTierIpOf(polls[k], decode, networkId).value)
  }

  /**
   * A ZeroTier connection reports an address one of the polls yielded; once joined, the reply is
   * the missing-address error exactly when no poll yields one.
   */
  lemma ZeroTierOutcome(networkId: string, run: Runner, polls: seq<CmdResult>,
                    decode: string -> Option<seq<ZtNetwork>>)
    requires |polls| == MAX_ATTEMPTS
    ensures var r := ZeroTierReply(networkId, run, polls, decode);
            r.VpnConnected? ==>
              && r.provider == ZeroTier && r.networkId == Some(networkId) && r.ip != ""
              && exists k :: 0 <= k < MAX_ATTEMPTS && ZeroTierIpOf(polls[k], decode, networkId) == Some(r.ip)
    ensures var r := ZeroTierReply(networkId, run, polls, decode);
            InstallFailure(run, "zerotier-cli", ZEROTIER_INSTALL).None?
            && run(ZeroTierJoin(networkId)).returncode == 0 ==>
              (r == VpnError(NO_ZEROTIER_IP) <==>
                 forall k :: 0 <= k < MAX_ATTEMPTS ==> !Assigned(ZeroTierIpOf(polls[k], decode, networkId)))
    ensures var r := ZeroTierReply(networkId, run, polls, decode);
            run(ZeroTierJoin(networkId)).returncode != 0 ==> !r.VpnConnected?
  {
  }

  /** What `configure_tailscale(auth_key)` replies. */
  function TailscaleReply(authKey: string, run: Runner): (r: VpnReply)
  {
    match InstallFailure(run, "tailscale", TAILSCALE_INSTALL)
    case Some(failure) => failure
    case None =>
      var up := run(TailscaleUp(authKey));
      if up.returncode != 0 then VpnError(CONNECT_FAILED + up.stderr)
      else match TailscaleIpOf(run(TAILSCALE_IP))
        case None => VpnError(NO_TAILSCALE_IP)
        case Some(ip) => VpnConnected(Tailscale, None, ip)
  }

  /** A Tailscale connection needs the installation, `tailscale up` and a dotted quad from `tailscale ip -4`. */
  lemma TailscaleOutcome(authKey: string, run: Runner)
    ensures var r := TailscaleReply(authKey, run);
            r.VpnConnected? <==>
              && InstallFailure(run, "tailscale", TAILSCALE_INSTALL).None?
              && run(TailscaleUp(authKey)).returncode == 0
              && TailscaleIpOf(run(TAILSCALE_IP)).Some?
    ensures var r := TailscaleReply(authKey, run);
            r.VpnConnected? ==>
              r == VpnConnected(Tailscale, None, TailscaleIpOf(run(TAILSCALE_IP)).value)
  {
  }

  /**
   * What `configure_wireguard(config_content)` replies. The content has just been written to
   * the configuration file, so the fallback reads it back.
   */
  function WireGuardReply(content: string, run: Runner): (r: VpnReply)
  {
    match InstallFailure(run, "wg-quick", WIREGUARD_INSTALL)
    case Some(failure) => failure
    case None =>
      var up := run(WIREGUARD_UP);
      if up.returncode != 0 then VpnError(WIREGUARD_FAILED + up.stderr)
      else match WireGuardIpOf(run(WIREGUARD_SHOW), Some(content))
        case None => VpnError(NO_WIREGUARD_IP)
        case Some(ip) => VpnConnected(WireGuard, None, ip)
  }

  /** A WireGuard connection needs the installation, `wg-quick up` and an address, which is a dotted quad. */
  lemma WireGuardOutcome(content: string, run: Runner)
    ensures var r := WireGuardReply(content, run);
            r.VpnConnected? <==>
              && InstallFailure(run, "wg-quick", WIREGUARD_INSTALL).None?
              && run(WIREGUARD_UP).returncode == 0
              && WireGuardIpOf(run(WIREGUARD_SHOW), Some(content)).Some?
    ensures var r := WireGuardReply(content, run);
            r.VpnConnected? ==>
              && r == VpnConnected(WireGuard, None, WireGuardIpOf(run(WIREGUARD_SHOW), Some(content)).value)
              && IsDottedQuad(r.ip)
  {
  }

  /** The command each provider's disconnect runs; ZeroTier leaves the network `nid`. */
  function DisconnectCommand(p: Provider, nid: string): seq<string> {
    match p
    case ZeroTier => ZeroTierLeave(nid)
    case Tailscale => TAILSCALE_DOWN
    case WireGuard => WIREGUARD_DOWN
  }

  class VpnManager {
    var provider: Option<Provider>
    var status: LinkStatus
    var assignedIp: Option<string>
    var networkId: Option<string>
    var authKey: Option<string>

    /**
     * The status is connected exactly when an address is held, which happens only with a provider;
     * a ZeroTier provider always comes with its network id.
     */
    predicate Valid()
      reads this
    {
      && (status == Connected <==> assignedIp.Some?)
      && (assignedIp.Some? ==> assignedIp.value != "" && provider.Some?)
      && (provider == Some(ZeroTier) ==> networkId.Some?)
    }

    constructor ()
      ensures Valid() && provider.None? && status == Disconnected && assignedIp.None?
      ensures networkId.None? && authKey.None?
    {
      provider, status, assignedIp, networkId, authKey := None, Disconnected, None, None, None;
    }

    /** A connection changes provider, status and address only once it has an address. */
    method ConfigureZeroTier(networkId: string, run: Runner, polls: seq<CmdResult>,
                             decode: string -> Option<seq<ZtNetwork>>) returns (reply: VpnReply)
      requires Valid() && |polls| == MAX_ATTEMPTS
      modifies this`provider, this`status, this`assignedIp, this`networkId
      ensures Valid()
      ensures reply == ZeroTierReply(networkId, run, polls, decode)
      ensures reply.VpnConnected? ==>
                && provider == Some(ZeroTier) && status == Connected && assignedIp == Some(reply.ip)
                && this.networkId == Some(networkId)
      ensures !reply.VpnConnected? ==> unchanged(this)
    {
      var failure := InstallFailure(run, "zerotier-cli", ZEROTIER_INSTALL);
      if failure.Some? {
        return failure.value;
      }
      var join := run(ZeroTierJoin(networkId));
      if join.returncode != 0 {
        return VpnError(JOIN_FAILED + join.stderr);
      }
      var attempt := 0;
      while attempt < MAX_ATTEMPTS
        invariant 0 <= attempt <= MAX_ATTEMPTS
        invariant FirstAssigned(polls, decode, networkId, attempt) == FirstAssigned(polls, decode, networkId, 0)
        invariant unchanged(this)
      {
        var ip := FindZeroTierIp(polls[attempt], decode, networkId);
        if ip.Some? && ip.value != "" {
          provider := Some(ZeroTier);
          status := Connected;
          assignedIp := ip;
          this.networkId := Some(networkId);
          return VpnConnected(ZeroTier, Some(networkId), ip.value);
        }
        attempt := attempt + 1;
      }
      return VpnError(NO_ZEROTIER_IP);
    }

    method ConfigureTailscale(authKey: string, run: Runner) returns (reply: VpnReply)
      requires Valid()
      modifies this`provider, this`status, this`assignedIp, this`authKey
      ensures Valid()
      ensures reply == TailscaleReply(authKey, run)
      ensures reply.VpnConnected? ==>
                && provider == Some(Tailscale) && status == Connected && assignedIp == Some(reply.ip)
                && this.authKey == Some(authKey)
      ensures !reply.VpnConnected? ==> unchanged(this)
    {
      var failure := InstallFailure(run, "tailscale", TAILSCALE_INSTALL);
      if failure.Some? {
        return failure.value;
      }
      var up := run(TailscaleUp(authKey));
      if up.returncode != 0 {
        return VpnError(CONNECT_FAILED + up.stderr);
      }
      reply := Adopt(Tailscale, TailscaleIpOf(run(TAILSCALE_IP)), NO_TAILSCALE_IP);
      if reply.VpnConnected? {
        this.authKey := Some(authKey);
      }
    }

    method ConfigureWireGuard(content: string, run: Runner) returns (reply: VpnReply)
      requires Valid()
      modifies this`provider, this`status, this`assignedIp
      ensures Valid()
      ensures reply == WireGuardReply(content, run)
      ensures reply.VpnConnected? ==>
                && provider == Some(WireGuard) && status == Connected && assignedIp == Some(reply.ip)
      ensures !reply.VpnConnected? ==> unchanged(this)
    {
      var failure := InstallFailure(run, "wg-quick", WIREGUARD_INSTALL);
      if failure.Some? {
        return failure.value;
      }
      var up := run(WIREGUARD_UP);
      if up.returncode != 0 {
        return VpnError(WIREGUARD_FAILED + up.stderr);
      }
      reply := Adopt(WireGuard, WireGuardIpOf(run(WIREGUARD_SHOW), Some(content)), NO_WIREGUARD_IP);
    }

    /**
     * The end of `configure_tailscale` and `configure_wireguard`: a found address makes
     * `provider` the connected provider; without one the reply carries the message `missing`.
     */
    method Adopt(p: Provider, ip: Option<string>, missing: string) returns (reply: VpnReply)
      requires Valid() && p != ZeroTier
      modifies this`provider, this`status, this`assignedIp
      ensures Valid()
      ensures Assigned(ip) ==>
                reply == VpnConnected(p, None, ip.value) && provider == Some(p) && status == Connected && assignedIp == ip
      ensures !Assigned(ip) ==> reply == VpnError(missing) && unchanged(this)
    {
      if ip.Some? && ip.value != "" {
        provider := Some(p);
        status := Connected;
        assignedIp := ip;
        return VpnConnected(p, None, ip.value);
      }
      return VpnError(missing);
    }

    /** A disconnect that succeeds clears status and address and keeps the provider. */
    method DisconnectZeroTier(run: Runner) returns (reply: VpnReply)
      requires Valid()
      modifies this`status, this`assignedIp
      ensures Valid()
      ensures old(networkId).None? || old(networkId).value == "" ==> reply == VpnError(NO_NETWORK) && unchanged(this)
      ensures old(networkId).Some? && old(networkId).value != "" ==>
                var result := run(ZeroTierLeave(old(networkId).value));
                && (result.returncode == 0 ==> reply == VpnDisconnected && status == Disconnected && assignedIp.None?)
                && (result.returncode != 0 ==> reply == VpnError(result.stderr) && unchanged(this))
    {
      if networkId.None? || networkId.value == "" {
        return VpnError(NO_NETWORK);
      }
      reply := Leave(run(ZeroTierLeave(networkId.value)));
    }

    method DisconnectTailscale(run: Runner) returns (reply: VpnReply)
      requires Valid()
      modifies this`status, this`assignedIp
      ensures Valid()
      ensures var result := run(TAILSCALE_DOWN);
              && (result.returncode == 0 ==> reply == VpnDisconnected && status == Disconnected && assignedIp.None?)
              && (result.returncode != 0 ==> reply == VpnError(result.stderr) && unchanged(this))
    {
      reply := Leave(run(TAILSCALE_DOWN));
    }

    method DisconnectWireGuard(run: Runner) returns (reply: VpnReply)
      requires Valid()
      modifies this`status, this`assignedIp
      ensures Valid()
      ensures var result := run(WIREGUARD_DOWN);
              && (result.returncode == 0 ==> reply == VpnDisconnected && status == Disconnected && assignedIp.None?)
              && (result.returncode != 0 ==> reply == VpnError(result.stderr) && unchanged(this))
    {
      reply := Leave(run(WIREGUARD_DOWN));
    }

    /** The common tail of the three disconnects, for the result of the provider's leave/down command. */
    method Leave(result: CmdResult) returns (reply: VpnReply)
      requires Valid()
      modifies this`status, this`assignedIp
      ensures Valid()
      ensures result.returncode == 0 ==> reply == VpnDisconnected && status == Disconnected && assignedIp.None?
      ensures result.returncode != 0 ==> reply == VpnError(result.stderr) && unchanged(this)
    {
      if result.returncode == 0 {
        status := Disconnected;
        assignedIp := None;
        return VpnDisconnected;
      }
      return VpnError(result.stderr);
    }

    /** `disconnect()` goes to the current provider's disconnect; without one it is an error. */
    method Disconnect(run: Runner) returns (reply: VpnReply)
      requires Valid()
      modifies this`status, this`assignedIp
      ensures Valid() && provider == old(provider)
      ensures old(provider).None? ==> reply == VpnError(NO_CONNECTION) && unchanged(this)
      ensures old(provider) == Some(ZeroTier) && (old(networkId).None? || old(networkId).value == "") ==>
                reply == VpnError(NO_NETWORK) && unchanged(this)
      ensures old(provider).Some? && !(old(provider) == Some(ZeroTier) && (old(networkId).None? || old(networkId).value == "")) ==>
                var result := run(DisconnectCommand(old(provider).value, old(networkId).GetOr("")));
                && (result.returncode == 0 ==> reply == VpnDisconnected && status == Disconnected && assignedIp.None?)
                && (result.returncode != 0 ==> reply == VpnError(result.stderr) && unchanged(this))
      ensures reply == VpnDisconnected ==> status == Disconnected && assignedIp.None?
      ensures !reply.VpnDisconnected? ==> unchanged(this)
    {
      match provider
      case None =>
        return VpnError(NO_CONNECTION);
      case Some(ZeroTier) =>
        reply := DisconnectZeroTier(run);
      case Some(Tailscale) =>
        reply := DisconnectTailscale(run);
      case Some(WireGuard) =>
        reply := DisconnectWireGuard(run);
    }

    /** `get_status()`: the network id is reported only while ZeroTier is the provider. */
    function Status(): (s: VpnStatus)
      reads this
      ensures s.provider == (if provider.None? then None else Some(ProviderName(provider.value)))
      ensures s.status == StatusName(status) && s.ipAddress == assignedIp
      ensures s.networkId.Some? ==> provider == Some(ZeroTier) && s.networkId == networkId
      ensures Valid() && provider == Some(ZeroTier) ==> s.networkId.Some?
    {
      VpnStatus(if provider.None? then None else Some(ProviderName(provider.value)), StatusName(status), assignedIp,
                if provider == Some(ZeroTier) then networkId else None)
    }
  }
}
