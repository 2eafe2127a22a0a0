/**
 * Network interfaces and the cellular modem (backend/app/services/network_manager.py):
 * interface classification, the `ip -j addr show` filter, the `mmcli`/`lsusb` modem
 * detection, the default-route and ping summaries. Subprocesses are a `Runner`; the JSON
 * decoder is a parameter.
 */
module NetworkManager {
  import opened Wrappers
  import opened Strings
  import opened Commands

  // ================================================================ interface classification

  /** The name prefixes and the interface type each one means. */
  const INTERFACE_PREFIXES: seq<(string, string)> := [
    ("wlan", "wifi"), ("wlp", "wifi"), ("eth", "ethernet"), ("enp", "ethernet"),
    ("wwan", "cellular"), ("usb", "cellular"), ("zt", "zerotier"),
    ("tailscale", "tailscale"), ("wg", "wireguard")]

  /** `_determine_interface_type`: the prefix tests in their order. */
  function InterfaceType(ifname: string): string {
    if StartsWith(ifname, "wlan") || StartsWith(ifname, "wlp") then "wifi"
    else if StartsWith(ifname, "eth") || StartsWith(ifname, "enp") then "ethernet"
    else if StartsWith(ifname, "wwan") || StartsWith(ifname, "usb") then "cellular"
    else if StartsWith(ifname, "zt") then "zerotier"
    else if StartsWith(ifname, "tailscale") then "tailscale"
    else if StartsWith(ifname, "wg") then "wireguard"
    else "unknown"
  }

  /** No prefix of the table starts another, so a name's type does not depend on the test order. */
  lemma InterfaceTypeByPrefix(ifname: string, k: nat)
    requires k < |INTERFACE_PREFIXES| && StartsWith(ifname, INTERFACE_PREFIXES[k].0)
    ensures InterfaceType(ifname) == INTERFACE_PREFIXES[k].1
  {
    assert ifname[0] == INTERFACE_PREFIXES[k].0[0];
    assert ifname[1] == INTERFACE_PREFIXES[k].0[1];
    if k == 0 || k == 4 {
      assert ifname[2] == INTERFACE_PREFIXES[k].0[2];
    }
  }

  /** A name with none of the prefixes is "unknown". */
  lemma InterfaceTypeUnknown(ifname: string)
    requires forall k :: 0 <= k < |INTERFACE_PREFIXES| ==> !StartsWith(ifname, INTERFACE_PREFIXES[k].0)
    ensures InterfaceType(ifname) == "unknown"
  {
    assert !StartsWith(ifname, INTERFACE_PREFIXES[0].0) && !StartsWith(ifname, INTERFACE_PREFIXES[1].0);
    assert !StartsWith(ifname, INTERFACE_PREFIXES[2].0) && !StartsWith(ifname, INTERFACE_PREFIXES[3].0);
    assert !StartsWith(ifname, INTERFACE_PREFIXES[4].0) && !StartsWith(ifname, INTERFACE_PREFIXES[5].0);
    assert !StartsWith(ifname, INTERFACE_PREFIXES[6].0) && !StartsWith(ifname, INTERFACE_PREFIXES[7].0);
    assert !StartsWith(ifname, INTERFACE_PREFIXES[8].0);
  }

  // ================================================================ ip -j addr show

  /** One entry of an interface's "addr_info"; a missing key is `None`. */
  datatype AddrRecord = AddrRecord(family: Option<string>, local: Option<string>, prefixlen: Option<int>)

  /** One decoded interface object; a missing "addr_info" is the empty list. */
  datatype IfaceRecord = IfaceRecord(ifname: Option<string>, addrInfo: seq<AddrRecord>,
                                     operstate: Option<string>, address: Option<string>, mtu: Option<int>)

  datatype IpAddress = IpAddress(family: string, address: string, prefix: Option<int>)

  /** One entry of the `get_interfaces` list. */
  datatype Interface = Interface(name: string, kind: string, state: string, mac: Option<string>,
                                 mtu: Option<int>, ipAddresses: seq<IpAddress>)

  predicate IsIpFamily(family: Option<string>) {
    family == Some("inet") || family == Some("inet6")
  }

  /** An address entry is reported, and then it must have "local" (else the lookup raises). */
  predicate AddrReadable(a: AddrRecord) {
    IsIpFamily(a.family) ==> a.local.Some?
  }

  /** Reading an interface object raises unless it has "ifname" and, when not loopback, readable addresses. */
  predicate RecordReadable(rec: IfaceRecord) {
    rec.ifname.Some? && (rec.ifname.value == "lo" || forall k :: 0 <= k < |rec.addrInfo| ==> AddrReadable(rec.addrInfo[k]))
  }

  /** The `ip_addresses` of an interface, or `None` when reading them raises. */
  function Addresses(addrs: seq<AddrRecord>): (r: Option<seq<IpAddress>>)
    ensures r.None? <==> exists k :: 0 <= k < |addrs| && !AddrReadable(addrs[k])
    ensures r.Some? ==> forall k :: 0 <= k < |r.value| ==> r.value[k].family in {"inet", "inet6"}
    ensures r.Some? ==> |r.value| <= |addrs|
  {
    if addrs == [] then Some([])
    else
      var init := addrs[..|addrs| - 1];
      var a := addrs[|addrs| - 1];
      assert forall k :: 0 <= k < |init| ==> init[k] == addrs[k];
      match Addresses(init)
      case None => None
      case Some(ips) =>
        if !IsIpFamily(a.family) then Some(ips)
        else if a.local.None? then None
        else Some(ips + [IpAddress(a.family.value, a.local.value, a.prefixlen)])
  }

  /** The address an inet/inet6 entry with "local" reports. */
  function IpOf(a: AddrRecord): IpAddress
    requires IsIpFamily(a.family) && a.local.Some?
  {
    IpAddress(a.family.value, a.local.value, a.prefixlen)
  }

  /** The addresses of two runs of entries are the addresses of each, in order. */
  lemma {:induction false} AddressesAppend(a: seq<AddrRecord>, b: seq<AddrRecord>)
    ensures Addresses(a + b) ==
              if Addresses(a).Some? && Addresses(b).Some? then Some(Addresses(a).value + Addresses(b).value) else None
  {
    if b == [] {
      assert a + b == a;
      if Addresses(a).Some? { assert Addresses(a).value + [] == Addresses(a).value; }
    } else {
      var b' := b[..|b| - 1];
      assert (a + b)[..|a + b| - 1] == a + b';
      assert (a + b)[|a + b| - 1] == b[|b| - 1];
      AddressesAppend(a, b');
      if Addresses(a).Some? && Addresses(b').Some? {
        var x := b[|b| - 1];
        if IsIpFamily(x.family) && x.local.Some? {
          var ip := IpAddress(x.family.value, x.local.value, x.prefixlen);
          assert Addresses(a).value + Addresses(b').value + [ip] == Addresses(a).value + (Addresses(b').value + [ip]);
        }
      }
    }
  }

  /** Every inet/inet6 entry of a readable list is reported, and every reported address comes from one. */
  lemma {:induction false} AddressesComplete(addrs: seq<AddrRecord>)
    requires Addresses(addrs).Some?
    ensures forall k :: 0 <= k < |addrs| && IsIpFamily(addrs[k].family) ==>
              addrs[k].local.Some? && IpOf(addrs[k]) in Addresses(addrs).value
    ensures forall x :: x in Addresses(addrs).value ==>
              exists k :: 0 <= k < |addrs| && IsIpFamily(addrs[k].family) && addrs[k].local.Some? && x == IpOf(addrs[k])
  {
    if addrs != [] {
      var init := addrs[..|addrs| - 1];
      assert forall k :: 0 <= k < |init| ==> init[k] == addrs[k];
      AddressesComplete(init);
    }
  }

  /** The entry for one readable, non-loopback interface object. */
  function InterfaceOf(rec: IfaceRecord): (r: Interface)
    requires RecordReadable(rec) && rec.ifname.value != "lo"
    ensures r.name == rec.ifname.value && r.kind == InterfaceType(r.name)
    ensures r.state == rec.operstate.GetOr("unknown") && r.mac == rec.address && r.mtu == rec.mtu
    ensures Some(r.ipAddresses) == Addresses(rec.addrInfo)
    ensures forall k :: 0 <= k < |r.ipAddresses| ==> r.ipAddresses[k].family in {"inet", "inet6"}
  {
    var name := rec.ifname.value;
    Interface(name, InterfaceType(name), rec.operstate.GetOr("unknown"), rec.address, rec.mtu,
              Addresses(rec.addrInfo).value)
  }

  /** The interface list for the decoded objects, or `None` when reading one of them raises. */
  function Interfaces(recs: seq<IfaceRecord>): (r: Option<seq<Interface>>)
    ensures r.None? <==> exists k :: 0 <= k < |recs| && !RecordReadable(recs[k])
    ensures r.Some? ==> forall k :: 0 <= k < |r.value| ==>
              && r.value[k].name != "lo" && r.value[k].kind == InterfaceType(r.value[k].name)
              && forall a :: a in r.value[k].ipAddresses ==> a.family in {"inet", "inet6"}
  {
    if recs == [] then Some([])
    else
      var init := recs[..|recs| - 1];
      var rec := recs[|recs| - 1];
      assert forall k :: 0 <= k < |init| ==> init[k] == recs[k];
      match Interfaces(init)
      case None => None
      case Some(list) =>
        if !RecordReadable(rec) then None
        else if rec.ifname.value == "lo" then Some(list)
        else Some(list + [InterfaceOf(rec)])
  }

  /** No object is the loopback interface. */
  predicate NoLoopback(recs: seq<IfaceRecord>) {
    forall k :: 0 <= k < |recs| ==> recs[k].ifname != Some("lo")
  }

  /**
   * Without loopback, the list has one entry per object, in the objects' order, each carrying
   * that object's name, state, MAC address, MTU and addresses.
   */
  lemma {:induction false} InterfacesKeepOrder(recs: seq<IfaceRecord>)
    requires Interfaces(recs).Some?
    ensures |Interfaces(recs).value| <= |recs|
    ensures NoLoopback(recs) ==>
              && |Interfaces(recs).value| == |recs|
              && forall k :: 0 <= k < |recs| ==> RecordReadable(recs[k]) && Interfaces(recs).value[k] == InterfaceOf(recs[k])
  {
    if recs != [] {
      var init := recs[..|recs| - 1];
      assert forall k :: 0 <= k < |init| ==> init[k] == recs[k];
      InterfacesKeepOrder(init);
      if NoLoopback(recs) {
        InterfacesInOrder(recs);
      }
    }
  }

  /** The in-order half of `InterfacesKeepOrder`, by induction over the objects. */
  lemma {:induction false} InterfacesInOrder(recs: seq<IfaceRecord>)
    requires Interfaces(recs).Some? && NoLoopback(recs)
    ensures |Interfaces(recs).value| == |recs|
    ensures forall k :: 0 <= k < |recs| ==> RecordReadable(recs[k]) && Interfaces(recs).value[k] == InterfaceOf(recs[k])
  {
    if recs != [] {
      var init := recs[..|recs| - 1];
      var rec := recs[|recs| - 1];
      assert forall k :: 0 <= k < |init| ==> init[k] == recs[k];
      assert NoLoopback(init);
      InterfacesInOrder(init);
      assert rec.ifname != Some("lo");
      var list := Interfaces(init).value;
      assert Interfaces(recs).value == list + [InterfaceOf(rec)];
      forall k | 0 <= k < |recs|
        ensures RecordReadable(recs[k]) && Interfaces(recs).value[k] == InterfaceOf(recs[k])
      {
        if k < |init| {
          assert Interfaces(recs).value[k] == list[k];
        }
      }
    }
  }

  /** The list for two runs of objects is the list for each, in order; a loopback object adds nothing. */
  lemma {:induction false} InterfacesAppend(a: seq<IfaceRecord>, b: seq<IfaceRecord>)
    ensures Interfaces(a + b) ==
              if Interfaces(a).Some? && Interfaces(b).Some? then Some(Interfaces(a).value + Interfaces(b).value) else None
  {
    if b == [] {
      assert a + b == a;
      if Interfaces(a).Some? { assert Interfaces(a).value + [] == Interfaces(a).value; }
    } else {
      var b' := b[..|b| - 1];
      assert (a + b)[..|a + b| - 1] == a + b';
      assert (a + b)[|a + b| - 1] == b[|b| - 1];
      InterfacesAppend(a, b');
      var rec := b[|b| - 1];
      if Interfaces(a).Some? && Interfaces(b').Some? && RecordReadable(rec) && rec.ifname.value != "lo" {
        var e := InterfaceOf(rec);
        assert Interfaces(a).value + Interfaces(b').value + [e] == Interfaces(a).value + (Interfaces(b').value + [e]);
      }
    }
  }

  /** Every readable non-loopback object yields its entry, and every entry comes from one. */
  lemma {:induction false} InterfacesComplete(recs: seq<IfaceRecord>)
    requires Interfaces(recs).Some?
    ensures forall k :: 0 <= k < |recs| && recs[k].ifname != Some("lo") ==>
              RecordReadable(recs[k]) && InterfaceOf(recs[k]) in Interfaces(recs).value
    ensures forall e :: e in Interfaces(recs).value ==>
              exists k :: 0 <= k < |recs| && RecordReadable(recs[k]) && recs[k].ifname != Some("lo") && e == InterfaceOf(recs[k])
  {
    if recs != [] {
      var init := recs[..|recs| - 1];
      assert forall k :: 0 <= k < |init| ==> init[k] == recs[k];
      InterfacesComplete(init);
    }
  }

  /** The inner loop of `get_interfaces`: the reported addresses of one interface. */
  method CollectAddresses(addrs: seq<AddrRecord>) returns (ips: Option<seq<IpAddress>>)
    ensures ips == Addresses(addrs)
  {
    var acc: seq<IpAddress> := [];
    var i := 0;
    while i < |addrs|
      invariant 0 <= i <= |addrs|
      invariant Addresses(addrs[..i]) == Some(acc)
    {
      assert addrs[..i + 1][..i] == addrs[..i];
      var a := addrs[i];
      if a.family == Some("inet") || a.family == Some("inet6") {
        if a.local.None? {
          PrefixUnreadable(addrs, i);
          return None;
        }
        acc := acc + [IpAddress(a.family.value, a.local.value, a.prefixlen)];
      }
      i := i + 1;
    }
    assert addrs[..i] == addrs;
    ips := Some(acc);
  }

  /** An unreadable address entry makes the whole address list unreadable. */
  lemma PrefixUnreadable(addrs: seq<AddrRecord>, i: nat)
    requires i < |addrs| && !AddrReadable(addrs[i])
    ensures Addresses(addrs) == None
  {
  }

  /** An unreadable interface object makes the whole listing unreadable. */
  lemma RecordUnreadable(recs: seq<IfaceRecord>, i: nat)
    requires i < |recs| && !RecordReadable(recs[i])
    ensures Interfaces(recs) == None
  {
  }

  /** What `get_interfaces` returns: the list, or [] when the command fails or reading raises. */
  function ListedInterfaces(result: CmdResult, decode: string -> Option<seq<IfaceRecord>>): seq<Interface> {
    if result.returncode != 0 then []
    else match decode(result.stdout)
      case None => []
      case Some(recs) => Interfaces(recs).GetOr([])
  }

  method GetInterfaces(run: Runner, decode: string -> Option<seq<IfaceRecord>>) returns (list: seq<Interface>)
    ensures list == ListedInterfaces(run(["ip", "-j", "addr", "show"]), decode)
  {
    var result := run(["ip", "-j", "addr", "show"]);
    if result.returncode != 0 {
      return [];
    }
    var decoded := decode(result.stdout);
    if decoded.None? {
      return [];
    }
    var recs := decoded.value;
    list := [];
    var i := 0;
    while i < |recs|
      invariant 0 <= i <= |recs|
      invariant Interfaces(recs[..i]) == Some(list)
    {
      assert recs[..i + 1][..i] == recs[..i];
      var rec := recs[i];
      if rec.ifname.None? {
        RecordUnreadable(recs, i);
        return [];
      }
      if rec.ifname.value != "lo" {
        var ips := CollectAddresses(rec.addrInfo);
        if ips.None? {
          RecordUnreadable(recs, i);
          return [];
        }
        var name := rec.ifname.value;
        list := list + [Interface(name, InterfaceType(name), rec.operstate.GetOr("unknown"), rec.address, rec.mtu, ips.value)];
      }
      i := i + 1;
    }
    assert recs[..i] == recs;
  }

  // ================================================================ mmcli field extraction

  /** `field:` occurs at `i`, ignoring case. */
  predicate LabelAt(text: string, field: string, i: nat) {
    i + |field| + 1 <= |text| && Lower(text[i..i + |field| + 1]) == Lower(field + ":")
  }

  /** The first line break at or after `p`, or the end of the text. */
  function LineEnd(text: string, p: nat): (q: nat)
    requires p <= |text|
    ensures p <= q <= |text| && (q == |text| || text[q] == '\n')
    ensures forall k :: p <= k < q ==> text[k] != '\n'
  {
    RunEnd(text, p, c => c != '\n')
  }

  /** A captured value, trimmed, without trailing "|", trimmed again. */
  function Clean(v: string): (r: string)
    ensures r == [] || (!IsSpace(r[0]) && !IsSpace(r[|r| - 1]))
  {
    Strip(RStripChar(Strip(v), '|'))
  }

  /**
   * The value the pattern `field:\s*(.+?)(?:\n|$)` captures when its match starts at `i`.
   * After the label the greedy `\s*` runs to the first non-blank; from there the lazy group
   * takes the rest of the line. When only blanks follow, the engine gives back blanks until
   * the group can take one that is not a line break, and the captured blanks clean to "".
   */
  function FieldAt(text: string, field: string, i: nat): Option<string> {
    if !LabelAt(text, field, i) then None
    else
      var j := i + |field| + 1;
      var p := RunEnd(text, j, IsSpace);
      if p < |text| || exists m :: j <= m < p && text[m] != '\n' then Some(ValueAfter(text, j))
      else None
  }

  /** The cleaned value after a label ending at `j`: the rest of the line from its first non-blank. */
  function ValueAfter(text: string, j: nat): string
    requires j <= |text|
  {
    var p := RunEnd(text, j, IsSpace);
    if p < |text| then Clean(text[p..LineEnd(text, p)]) else ""
  }

  /** The leftmost position at or after `from` where the field pattern matches. */
  function FindField(text: string, field: string, from: nat): (r: Option<nat>)
    requires from <= |text|
    ensures r.Some? ==> from <= r.value <= |text| && FieldAt(text, field, r.value).Some?
    ensures forall k: nat :: from <= k <= |text| && (r.None? || k < r.value) ==> FieldAt(text, field, k).None?
    decreases |text| - from
  {
    if FieldAt(text, field, from).Some? then Some(from)
    else if from == |text| then None
    else FindField(text, field, from + 1)
  }

  /** `_extract_field`: the cleaned value of the first matching `field:` line, if any. */
  function ExtractField(text: string, field: string): (r: Option<string>)
    ensures (forall i: nat :: !LabelAt(text, field, i)) ==> r.None?
    ensures r.Some? ==> exists i: nat :: LabelAt(text, field, i)
    ensures r.Some? ==> r.value == [] || (!IsSpace(r.value[0]) && !IsSpace(r.value[|r.value| - 1]))
  {
    match FindField(text, field, 0)
    case None => None
    case Some(i) => FieldAt(text, field, i)
  }

  /**
   * The value is read after the leftmost label: a value exactly when the pattern matches
   * somewhere, and then the rest of that line from its first non-blank, cleaned.
   */
  lemma ExtractFieldValue(text: string, field: string)
    ensures ExtractField(text, field).Some? <==> exists i: nat :: i <= |text| && FieldAt(text, field, i).Some?
    ensures ExtractField(text, field).Some? ==>
              var i := FindField(text, field, 0).value;
              && LabelAt(text, field, i)
              && (forall k: nat :: k < i ==> FieldAt(text, field, k).None?)
              && ExtractField(text, field).value == ValueAfter(text, i + |field| + 1)
  {
    var r := FindField(text, field, 0);
    assert ExtractField(text, field) == if r.Some? then FieldAt(text, field, r.value) else None;
    if r.Some? {
      FieldAtValue(text, field, r.value);
    }
  }

  lemma FieldAtValue(text: string, field: string, i: nat)
    requires FieldAt(text, field, i).Some?
    ensures LabelAt(text, field, i)
    ensures FieldAt(text, field, i).value == ValueAfter(text, i + |field| + 1)
  {
  }

  /** A line `field: value` at the start of the output yields the value, cleaned. */
  lemma ExtractFieldReadsLine(field: string, value: string, rest: string)
    requires value != [] && !IsSpace(value[0]) && '\n' !in value
    ensures ExtractField(field + ": " + value + "\n" + rest, field) == Some(Clean(value))
  {
    var text := field + ": " + value + "\n" + rest;
    var j := |field| + 1;
    LabelAtStart(field, text[j..]);
    assert text == field + ":" + text[j..];
    BlankThenValue(text, j, value);
    assert text[j + 1..j + 1 + |value|] == value;
    var p := RunEnd(text, j, IsSpace);
    assert p == j + 1 && p < |text|;
    assert text[p..LineEnd(text, p)] == value;
    assert FieldAt(text, field, 0) == Some(Clean(value));
  }

  lemma LabelAtStart(field: string, tail: string)
    ensures LabelAt(field + ":" + tail, field, 0)
  {
    var text := field + ":" + tail;
    assert text[0..|field| + 1] == field + ":";
  }

  /** One blank after the label, then the value up to the line break. */
  lemma BlankThenValue(text: string, j: nat, value: string)
    requires j + |value| + 2 <= |text| && text[j] == ' ' && text[j + 1..j + 1 + |value|] == value
    requires value != [] && !IsSpace(value[0]) && '\n' !in value && text[j + 1 + |value|] == '\n'
    ensures RunEnd(text, j, IsSpace) == j + 1
    ensures LineEnd(text, j + 1) == j + 1 + |value|
  {
    assert text[j + 1] == value[0];
    var q := LineEnd(text, j + 1);
    assert forall k :: j + 1 <= k < j + 1 + |value| ==> text[k] == value[k - j - 1];
    assert forall k :: 0 <= k < |value| ==> value[k] != '\n';
  }

  // ================================================================ modems

  datatype ModemInfo =
    | ModemManagerModem(id: string, manufacturer: Option<string>, model: Option<string>, signalQuality: Option<string>)
    | UsbModem(description: string, vendor: string)

  const MODEM_MANAGER_PATH := "/org/freedesktop/ModemManager"
  const MODEM_KEYWORDS: seq<string> := ["Huawei", "ZTE", "Sierra", "Qualcomm", "Telit", "Quectel"]

  /** The modem number `/org/freedesktop/ModemManager\d+/Modem/(\d+)` captures when its match starts at `i`. */
  function ModemIdAt(s: string, i: nat): (r: Option<string>)
    ensures r.Some? ==> IsDigits(r.value)
  {
    if !OccursAt(s, MODEM_MANAGER_PATH, i) then None
    else
      var j := i + |MODEM_MANAGER_PATH|;
      var e1 := RunEnd(s, j, IsDigit);
      if e1 == j || !OccursAt(s, "/Modem/", e1) then None
      else
        var e2 := RunEnd(s, e1 + 7, IsDigit);
        if e2 == e1 + 7 then None else Some(s[e1 + 7..e2])
  }

  /** Where the leftmost match of the modem-path pattern at or after `from` starts. */
  function FindModemId(s: string, from: nat): (r: Option<nat>)
    requires from <= |s|
    ensures r.Some? ==> from <= r.value <= |s| && ModemIdAt(s, r.value).Some?
    ensures forall k: nat :: from <= k <= |s| && (r.None? || k < r.value) ==> ModemIdAt(s, k).None?
    decreases |s| - from
  {
    if ModemIdAt(s, from).Some? then Some(from)
    else if from == |s| then None
    else FindModemId(s, from + 1)
  }

  /** What `_detect_modem_manager` returns for the `mmcli` results. */
  function ModemManagerModemOf(run: Runner): (r: Option<ModemInfo>)
    ensures r.Some? ==> r.value.ModemManagerModem? && IsDigits(r.value.id)
    ensures r.Some? ==> run(["which", "mmcli"]).returncode == 0 && run(["mmcli", "-L"]).returncode == 0
    ensures r.Some? ==>
              var listing := run(["mmcli", "-L"]).stdout;
              && Contains(listing, MODEM_MANAGER_PATH) && FindModemId(listing, 0).Some?
              && Some(r.value.id) == ModemIdAt(listing, FindModemId(listing, 0).value)
              && var details := run(["mmcli", "-m", r.value.id]);
                 && details.returncode == 0
                 && r.value.manufacturer == ExtractField(details.stdout, "manufacturer")
                 && r.value.model == ExtractField(details.stdout, "model")
                 && r.value.signalQuality == ExtractField(details.stdout, "signal quality")
  {
    if run(["which", "mmcli"]).returncode != 0 then None
    else
      var listing := run(["mmcli", "-L"]);
      if listing.returncode != 0 || !Contains(listing.stdout, MODEM_MANAGER_PATH) then None
      else match FindModemId(listing.stdout, 0)
        case None => None
        case Some(i) =>
          var id := ModemIdAt(listing.stdout, i).value;
          var details := run(["mmcli", "-m", id]);
          if details.returncode != 0 then None
          else Some(ModemManagerModem(id, ExtractField(details.stdout, "manufacturer"),
                                      ExtractField(details.stdout, "model"),
                                      ExtractField(details.stdout, "signal quality")))
  }

  /** The first keyword, in list order, that a line mentions, ignoring case. */
  function KeywordIn(line: string): Option<nat> {
    FirstWhere(MODEM_KEYWORDS, (k: string) => Contains(Lower(line), Lower(k)))
  }

  predicate MentionsModem(line: string) {
    KeywordIn(line).Some?
  }

  /** What `_detect_usb_modem` returns for the `lsusb` result: the first line naming a modem maker. */
  function UsbModemOf(result: CmdResult): (r: Option<ModemInfo>)
    ensures r.Some? ==> r.value.UsbModem? && r.value.vendor in MODEM_KEYWORDS
  {
    if result.returncode != 0 then None
    else
      var lines := Split(result.stdout, '\n');
      match FirstWhere(lines, MentionsModem)
      case None => None
      case Some(n) => Some(UsbModem(Strip(lines[n]), MODEM_KEYWORDS[KeywordIn(lines[n]).value]))
  }

  /** The keyword loop for one line. */
  method FindKeyword(line: string) returns (k: Option<nat>)
    ensures k == KeywordIn(line)
  {
    var i := 0;
    while i < |MODEM_KEYWORDS|
      invariant 0 <= i <= |MODEM_KEYWORDS|
      invariant forall j :: 0 <= j < i ==> !Contains(Lower(line), Lower(MODEM_KEYWORDS[j]))
    {
      if Contains(Lower(line), Lower(MODEM_KEYWORDS[i])) {
        return Some(i);
      }
      i := i + 1;
    }
    return None;
  }

  /** The line loop of `_detect_usb_modem`: the first line that names a modem maker. */
  method FindModemLine(lines: seq<string>) returns (n: Option<nat>)
    ensures n == FirstWhere(lines, MentionsModem)
  {
    var i := 0;
    while i < |lines|
      invariant 0 <= i <= |lines|
      invariant forall j :: 0 <= j < i ==> !MentionsModem(lines[j])
    {
      var k := FindKeyword(lines[i]);
      if k.Some? {
        FirstWhereAt(lines, MentionsModem, i);
        return Some(i);
      }
      NoneUpToNext(lines, MentionsModem, i);
      i := i + 1;
    }
    return None;
  }

  method DetectUsbModem(run: Runner) returns (modem: Option<ModemInfo>)
    ensures modem == UsbModemOf(run(["lsusb"]))
  {
    var result := run(["lsusb"]);
    if result.returncode != 0 {
      return None;
    }
    var lines := Split(result.stdout, '\n');
    var n := FindModemLine(lines);
    if n.Some? {
      var k := FindKeyword(lines[n.value]);
      return Some(UsbModem(Strip(lines[n.value]), MODEM_KEYWORDS[k.value]));
    }
    return None;
  }

  datatype SignalStrength = SignalStrength(rssi: Option<string>, rsrp: Option<string>, rsrq: Option<string>)

  datatype ConnectionStatus = ConnectionStatus(connected: bool, iface: Option<string>, kind: Option<string>)

  /** `NetworkManager`: the modem found by the last successful detection. */
  class NetworkManager {
    var modemInfo: Option<ModemInfo>

    constructor ()
      ensures modemInfo == None
    {
      modemInfo := None;
    }

    /** ModemManager first, then `lsusb`; a failed detection keeps the previous modem. */
    method DetectModem(run: Runner) returns (modem: Option<ModemInfo>)
      modifies this
      ensures ModemManagerModemOf(run).Some? ==> modem == ModemManagerModemOf(run)
      ensures ModemManagerModemOf(run).None? ==> modem == UsbModemOf(run(["lsusb"]))
      ensures modemInfo == if modem.Some? then modem else old(modemInfo)
    {
      var mm := ModemManagerModemOf(run);
      if mm.Some? {
        modemInfo := mm;
        return mm;
      }
      var usb := DetectUsbModem(run);
      if usb.Some? {
        modemInfo := usb;
        return usb;
      }
      return None;
    }

    /** `get_signal_strength`: the `--signal-get` fields, for a ModemManager modem only. */
    function SignalStrengthOf(run: Runner): (r: Option<SignalStrength>)
      reads this
      ensures modemInfo.None? ==> r.None?
      ensures r.Some? ==> modemInfo.Some? && modemInfo.value.ModemManagerModem?
      ensures modemInfo.Some? && modemInfo.value.ModemManagerModem? ==>
        var result := run(["mmcli", "-m", modemInfo.value.id, "--signal-get"]);
        && (r.Some? <==> result.returncode == 0)
        && (r.Some? ==> r.value.rssi == ExtractField(result.stdout, "rssi")
                        && r.value.rsrp == ExtractField(result.stdout, "rsrp")
                        && r.value.rsrq == ExtractField(result.stdout, "rsrq"))
    {
      if modemInfo.None? || !modemInfo.value.ModemManagerModem? then None
      else
        var result := run(["mmcli", "-m", modemInfo.value.id, "--signal-get"]);
        if result.returncode != 0 then None
        else Some(SignalStrength(ExtractField(result.stdout, "rssi"), ExtractField(result.stdout, "rsrp"),
                                 ExtractField(result.stdout, "rsrq")))
    }
  }

  // ================================================================ route and ping

  /** The interface `dev\s+(\S+)` captures when its match starts at `i`. */
  function DevAt(s: string, i: nat): (r: Option<string>)
    ensures r.Some? ==> r.value != [] && forall k :: 0 <= k < |r.value| ==> !IsSpace(r.value[k])
  {
    if !OccursAt(s, "dev", i) then None
    else
      var p := RunEnd(s, i + 3, IsSpace);
      if p == i + 3 || p == |s| then None
      else
        var q := RunEnd(s, p, c => !IsSpace(c));
        Some(s[p..q])
  }

  /** Where the leftmost match of `dev\s+(\S+)` at or after `from` starts. */
  function FindDev(s: string, from: nat): (r: Option<nat>)
    requires from <= |s|
    ensures r.Some? ==> from <= r.value <= |s| && DevAt(s, r.value).Some?
    ensures forall k: nat :: from <= k <= |s| && (r.None? || k < r.value) ==> DevAt(s, k).None?
    decreases |s| - from
  {
    if DevAt(s, from).Some? then Some(from)
    else if from == |s| then None
    else FindDev(s, from + 1)
  }

  /** `get_connection_status` for the `ip route show default` result. */
  function ConnectionStatusOf(route: CmdResult): (r: ConnectionStatus)
    ensures r.connected <==> route.returncode == 0 && route.stdout != [] && FindDev(route.stdout, 0).Some?
    ensures r.connected ==> r.iface == DevAt(route.stdout, FindDev(route.stdout, 0).value)
    ensures r.connected ==> r.iface.Some? && r.kind == Some(InterfaceType(r.iface.value))
    ensures !r.connected ==> r.iface.None? && r.kind.None?
  {
    if route.returncode == 0 && route.stdout != [] then
      match FindDev(route.stdout, 0)
      case Some(i) =>
        var dev := DevAt(route.stdout, i).value;
        ConnectionStatus(true, Some(dev), Some(InterfaceType(dev)))
      case None => ConnectionStatus(false, None, None)
    else ConnectionStatus(false, None, None)
  }

  /** The loss percentage `(\d+)% packet loss` captures when its match starts at `i`. */
  function LossAt(s: string, i: nat): (r: Option<nat>)
  {
    if i > |s| then None
    else
      var e := RunEnd(s, i, IsDigit);
      if e == i || !OccursAt(s, "% packet loss", e) then None else Some(DigitsValue(s[i..e]))
  }

  /** Where the leftmost match of the packet-loss pattern at or after `from` starts. */
  function FindLoss(s: string, from: nat): (r: Option<nat>)
    requires from <= |s|
    ensures r.Some? ==> from <= r.value <= |s| && LossAt(s, r.value).Some?
    ensures forall k: nat :: from <= k <= |s| && (r.None? || k < r.value) ==> LossAt(s, k).None?
    decreases |s| - from
  {
    if LossAt(s, from).Some? then Some(from)
    else if from == |s| then None
    else FindLoss(s, from + 1)
  }

  /** The loss `test_connectivity` reports: the leftmost match's percentage, or 100. */
  function PacketLoss(stdout: string): nat {
    match FindLoss(stdout, 0)
    case Some(i) => LossAt(stdout, i).value
    case None => 100
  }

  datatype Connectivity = Connectivity(status: string, packetLoss: nat)

  /** `test_connectivity` for the ping result; the average round-trip time is not modelled. */
  function ConnectivityOf(ping: CmdResult): (r: Connectivity)
    ensures r.status == "online" <==> ping.returncode == 0
    ensures r.status == "online" || r.status == "offline"
    ensures ping.returncode != 0 ==> r.packetLoss == 100
    ensures ping.returncode == 0 && FindLoss(ping.stdout, 0).None? ==> r.packetLoss == 100
    ensures ping.returncode == 0 && FindLoss(ping.stdout, 0).Some? ==>
              Some(r.packetLoss) == LossAt(ping.stdout, FindLoss(ping.stdout, 0).value)
  {
    if ping.returncode == 0 then Connectivity("online", PacketLoss(ping.stdout))
    else Connectivity("offline", 100)
  }

  /** The ping summary line yields its percentage. */
  lemma PacketLossOfSummary(digits: string, rest: string)
    requires IsDigits(digits)
    ensures FindLoss(digits + "% packet loss" + rest, 0) == Some(0)
    ensures PacketLoss(digits + "% packet loss" + rest) == DigitsValue(digits)
  {
    var s := digits + "% packet loss" + rest;
    assert forall k :: 0 <= k < |digits| ==> s[k] == digits[k];
    assert s[|digits|] == '%';
    assert RunEnd(s, 0, IsDigit) == |digits|;
    assert s[|digits|..|digits| + 13] == "% packet loss";
    assert s[0..|digits|] == digits;
  }
}
