/**
 Network and boot device parameters as strings (discover/platform.c, lib/types/types.c):
 what is printed for a configuration, and when it is read back unchanged.
 */
module Params {
  import opened Common
  import Url

  // --- tokens ---

  /** The length of the longest prefix without `c` (or, if `skip`, of nothing but `c`). */
  function Run(s: string, c: char, skip: bool): (n: nat)
    ensures n <= |s| && (n < |s| ==> (s[n] == c) != skip) && forall k :: 0 <= k < n ==> (s[k] == c) == skip
  {
    if s == "" || (s[0] == c) != skip then 0 else 1 + Run(s[1..], c, skip)
  }

  /** The tokens that `strtok_r` yields: the stretches between delimiters, none of them empty. */
  function Tokens(s: string, c: char): (r: seq<string>)
    decreases |s|
  {
    var t := s[Run(s, c, true)..];
    if t == "" then [] else
      var n := Run(t, c, false);
      [t[..n]] + Tokens(t[n..], c)
  }

  predicate IsToken(s: string, c: char) {
    s != "" && c !in s
  }

  function Joined(parts: seq<string>, c: char): (r: string) {
    if parts == [] then "" else if |parts| == 1 then parts[0] else parts[0] + [c] + Joined(parts[1..], c)
  }

  lemma RunIs(s: string, c: char, skip: bool, n: nat)
    requires n <= |s| && (n < |s| ==> (s[n] == c) != skip) && forall k :: 0 <= k < n ==> (s[k] == c) == skip
    ensures Run(s, c, skip) == n
  {
    hide Run;
  }

  /** One token and a delimiter, or the last token. */
  lemma {:induction false} TokensFirst(part: string, rest: string, c: char)
    requires IsToken(part, c) && (rest == "" || rest[0] == c)
    ensures Tokens(part + rest, c) == [part] + Tokens(rest, c)
  {
    var s := part + rest;
    assert s[0] == part[0] && part[0] in part;
    RunIs(s, c, true, 0);
    assert s[0..] == s;
    forall k | 0 <= k < |part| ensures s[k] != c { assert s[k] == part[k] && part[k] in part; }
    RunIs(s, c, false, |part|);
    assert s[..|part|] == part && s[|part|..] == rest;
  }

  lemma {:induction false} TokensSkip(rest: string, c: char)
    ensures Tokens([c] + rest, c) == Tokens(rest, c)
  {
    var s := [c] + rest;
    var n := Run(rest, c, true);
    RunIs(s, c, true, n + 1);
    assert s[n + 1..] == rest[n..];
  }

  /** Printing tokens with delimiters between them and taking them apart again. */
  lemma {:induction false} TokensJoined(parts: seq<string>, c: char)
    requires forall k :: 0 <= k < |parts| ==> IsToken(parts[k], c)
    ensures Tokens(Joined(parts, c), c) == parts
  {
    hide Tokens, IsToken;
    if |parts| == 1 {
      TokensFirst(parts[0], "", c);
      TokensNone(c);
      assert parts[0] + "" == parts[0] && parts == [parts[0]] + [];
    } else if |parts| > 1 {
      var rest := Joined(parts[1..], c);
      TokensJoined(parts[1..], c);
      TokensFirst(parts[0], [c] + rest, c);
      TokensSkip(rest, c);
      assert parts[0] + [c] + rest == parts[0] + ([c] + rest) && parts == [parts[0]] + parts[1..];
    } else {
      TokensNone(c);
    }
  }

  lemma TokensNone(c: char)
    ensures Tokens("", c) == []
  {
  }

  // --- hardware addresses ---

  function HexDigit(c: char): (r: int) {
    if '0' <= c <= '9' then c as int - '0' as int
    else if 'a' <= c <= 'f' then c as int - 'a' as int + 10
    else if 'A' <= c <= 'F' then c as int - 'A' as int + 10
    else -1
  }

  /** `strtoul` in base 16 of two characters, both of which must be used: digits, or a blank or sign and a digit. */
  function HexPair(a: char, b: char): (r: Option<int>) {
    var x, y := HexDigit(a), HexDigit(b);
    if y < 0 then None
    else if x >= 0 then Some(16 * x + y)
    else if a == ' ' || '\t' <= a <= '\r' || a == '+' then Some(y)
    else if a == '-' then Some((256 - y) % 256)
    else None
  }

  function Digit(n: int): (c: char)
    requires 0 <= n < 16
    ensures HexDigit(c) == n
  {
    if n < 10 then ('0' as int + n) as char else ('a' as int + n - 10) as char
  }

  function Capital(c: char): (r: char) {
    if 'a' <= c <= 'f' then c - 'a' + 'A' else c
  }

  /** Digits may be written with capital letters. */
  lemma MacCapitals(s: string, t: string)
    requires |t| == |s| && forall k :: 0 <= k < |s| ==> t[k] == Capital(s[k])
    ensures MacOf(t) == MacOf(s)
  {
    forall a, b ensures HexPair(Capital(a), Capital(b)) == HexPair(a, b) { CapitalPair(a, b); }
    hide HexPair, Capital;
    if |s| == 17 {
      forall k | 0 <= k < 6 ensures HexPair(t[3 * k], t[3 * k + 1]) == HexPair(s[3 * k], s[3 * k + 1]) {
        assert t[3 * k] == Capital(s[3 * k]) && t[3 * k + 1] == Capital(s[3 * k + 1]);
      }
      if MacOf(s).Some? {
        assert MacOf(t).Some? && MacOf(t).value == MacOf(s).value;
      }
    }
  }

  lemma CapitalPair(a: char, b: char)
    ensures HexPair(Capital(a), Capital(b)) == HexPair(a, b)
    ensures HexDigit('A') == 10 && HexDigit('F') == 15 && HexDigit('a') == 10 && HexDigit('f') == 15
  {
  }

  predicate IsMac(m: seq<int>) {
    |m| == 6 && forall k :: 0 <= k < 6 ==> 0 <= m[k] < 256
  }

  function PrintMac(m: seq<int>): (r: string)
    requires IsMac(m)
    ensures |r| == 17
  {
    seq(17, k requires 0 <= k < 17 => MacChar(m, k))
  }

  /** Two digits for each byte, and a colon between them. */
  function MacChar(m: seq<int>, k: int): (c: char)
    requires IsMac(m) && 0 <= k < 17
  {
    if k % 3 == 2 then ':' else if k % 3 == 0 then Digit(m[k / 3] / 16) else Digit(m[k / 3] % 16)
  }

  ghost function MacOf(s: string): (r: Option<seq<int>>) {
    if |s| == 17 && forall k :: 0 <= k < 6 ==> HexPair(s[3 * k], s[3 * k + 1]).Some?
    then Some(seq(6, k requires 0 <= k < 6 => HexPair(s[3 * k], s[3 * k + 1]).value))
    else None
  }

  /** `parse_hwaddr`: the characters between the pairs are not looked at. */
  method ParseMac(s: string) returns (r: Option<seq<int>>)
    ensures r == MacOf(s)
  {
    hide HexPair;
    if |s| != 17 {
      return None;
    }
    var m := [];
    var i := 0;
    while i < 6
      invariant 0 <= i <= 6 && |m| == i
      invariant forall k :: 0 <= k < i ==> HexPair(s[3 * k], s[3 * k + 1]) == Some(m[k])
    {
      var x := HexPair(s[3 * i], s[3 * i + 1]);
      if x == None {
        return None;
      }
      m := m + [x.value];
      i := i + 1;
    }
    assert m == MacOf(s).value;
    return Some(m);
  }

  lemma MacBack(m: seq<int>)
    requires IsMac(m)
    ensures MacOf(PrintMac(m)) == Some(m)
    ensures ',' !in PrintMac(m) && ' ' !in PrintMac(m) && HexDigit(PrintMac(m)[1]) >= 0
  {
    hide PrintMac, HexPair, HexDigit;
    forall k | 0 <= k < 6 ensures HexPair(PrintMac(m)[3 * k], PrintMac(m)[3 * k + 1]) == Some(m[k]) { PairBack(m, k); }
    MacPlain(m);
    var s := PrintMac(m);
    assert |s| == 17;
    assert seq(6, k requires 0 <= k < 6 => HexPair(s[3 * k], s[3 * k + 1]).value) == m;
  }

  lemma PairBack(m: seq<int>, k: int)
    requires IsMac(m) && 0 <= k < 6
    ensures HexPair(PrintMac(m)[3 * k], PrintMac(m)[3 * k + 1]) == Some(m[k])
  {
    hide Digit, HexDigit, PrintMac;
    PrintedMac(m);
    assert MacChar(m, 3 * k) == Digit(m[k] / 16) && MacChar(m, 3 * k + 1) == Digit(m[k] % 16);
  }

  lemma MacPlain(m: seq<int>)
    requires IsMac(m)
    ensures ',' !in PrintMac(m) && ' ' !in PrintMac(m) && HexDigit(PrintMac(m)[1]) >= 0
  {
    hide Digit, HexDigit, PrintMac;
    PrintedMac(m);
    Punctuation();
    forall k | 0 <= k < 17 ensures PrintMac(m)[k] != ',' && PrintMac(m)[k] != ' ' {
      assert PrintMac(m)[k] == MacChar(m, k);
    }
    assert PrintMac(m)[1] == MacChar(m, 1);
  }

  lemma PrintedMac(m: seq<int>)
    requires IsMac(m)
    ensures |PrintMac(m)| == 17 && forall k :: 0 <= k < 17 ==> PrintMac(m)[k] == MacChar(m, k)
  {
  }

  lemma Punctuation()
    ensures HexDigit(',') < 0 && HexDigit(' ') < 0 && HexDigit('n') < 0 && HexDigit('N') < 0
  {
  }

  // --- one interface ---

  datatype Setup = Dhcp | Static(address: string, gateway: Option<string>, url: Option<string>)
  datatype Interface = Interface(mac: seq<int>, ignore: bool, setup: Setup)

  predicate IsValue(s: string) {
    s != "" && ',' !in s && ' ' !in s
  }

  predicate WellFormed(i: Interface) {
    && IsMac(i.mac)
    && (i.setup.Static? ==>
          && IsValue(i.setup.address)
          && (i.setup.gateway.Some? ==> IsValue(i.setup.gateway.value))
          && (i.setup.url.Some? ==> IsValue(i.setup.url.value)))
  }

  function Optional(s: Option<string>): (r: seq<string>) {
    if s == None then [] else [s.value]
  }

  function SetupTokens(i: Interface): (r: seq<string>) {
    if i.ignore then ["ignore"]
    else match i.setup
      case Dhcp => ["dhcp"]
      case Static(address, gateway, url) => ["static", address] + Optional(gateway) + Optional(url)
  }

  /** `interface_config_str`, as the tokens between its commas. */
  function PrintInterface(i: Interface): (r: string)
    requires WellFormed(i)
  {
    Joined([PrintMac(i.mac)] + SetupTokens(i), ',')
  }

  /** What the tokens behind the hardware address say. A last token that is a URL is not taken for a gateway. */
  function SetupOf(mac: seq<int>, t: seq<string>): (r: Option<Interface>) {
    if t == [] || t[0] == "ignore" then Some(Interface(mac, true, Dhcp))
    else if t[0] == "dhcp" then Some(Interface(mac, false, Dhcp))
    else if t[0] != "static" || |t| < 2 then None
    else if |t| == 2 then Some(Interface(mac, false, Static(t[1], None, None)))
    else if |t| > 3 then Some(Interface(mac, false, Static(t[1], Some(t[2]), Some(t[3]))))
    else if Url.IsUrl(t[2]) then Some(Interface(mac, false, Static(t[1], None, Some(t[2]))))
    else Some(Interface(mac, false, Static(t[1], Some(t[2]), None)))
  }

  ghost function InterfaceOf(s: string): (r: Option<Interface>) {
    var t := Tokens(s, ',');
    if t == [] || MacOf(t[0]) == None then None else SetupOf(MacOf(t[0]).value, t[1..])
  }

  /** Why a token is no interface: no hardware address, an unknown method, or a static one without address. */
  ghost predicate Unreadable(s: string) {
    var t := Tokens(s, ',');
    || t == [] || MacOf(t[0]) == None
    || (|t| > 1 && t[1] !in {"ignore", "dhcp", "static"}) || (|t| == 2 && t[1] == "static")
  }

  /**
   `config_parse_one_interface`: what was printed for an interface is read back, and what is
   unreadable is refused.
   */
  method ParseInterface(s: string) returns (r: Option<Interface>)
    ensures r == InterfaceOf(s)
    ensures r == None <==> Unreadable(s)
    ensures forall i :: WellFormed(i) && PrintInterface(i) == s ==> r == Some(Arrives(i))
  {
    forall i | WellFormed(i) && PrintInterface(i) == s ensures InterfaceOf(s) == Some(Arrives(i)) { InterfaceBack(i); }
    hide MacOf, Tokens, PrintInterface, Arrives, WellFormed;
    var t := Tokens(s, ',');
    if |t| == 0 {
      return None;
    }
    var mac := ParseMac(t[0]);
    if mac == None {
      return None;
    }
    return SetupOf(mac.value, t[1..]);
  }

  /**
   What arrives: an ignored interface loses its setup, and a gateway that looks like a URL changes
   places with one that does not.
   */
  function Arrives(i: Interface): (r: Interface) {
    if i.ignore then Interface(i.mac, true, Dhcp)
    else if i.setup == Dhcp then i
    else if i.setup.url == None && i.setup.gateway.Some? && Url.IsUrl(i.setup.gateway.value) then
      i.(setup := Static(i.setup.address, None, i.setup.gateway))
    else if i.setup.gateway == None && i.setup.url.Some? && !Url.IsUrl(i.setup.url.value) then
      i.(setup := Static(i.setup.address, i.setup.url, None))
    else i
  }

  /** When an interface is read back as it was. */
  lemma ArrivesIff(i: Interface)
    ensures Arrives(i) == i <==>
      if i.ignore then i.setup == Dhcp
      else i.setup.Static? ==>
        && (i.setup.url == None && i.setup.gateway.Some? ==> !Url.IsUrl(i.setup.gateway.value))
        && (i.setup.gateway == None && i.setup.url.Some? ==> Url.IsUrl(i.setup.url.value))
  {
  }

  lemma SetupBack(i: Interface)
    requires WellFormed(i)
    ensures SetupOf(i.mac, SetupTokens(i)) == Some(Arrives(i))
    ensures forall k :: 0 <= k < |SetupTokens(i)| ==> IsToken(SetupTokens(i)[k], ',') && IsToken(SetupTokens(i)[k], ' ')
  {
    hide Url.IsUrl;
  }

  lemma {:induction false} InterfaceBack(i: Interface)
    requires WellFormed(i)
    ensures InterfaceOf(PrintInterface(i)) == Some(Arrives(i))
    ensures IsToken(PrintInterface(i), ' ') && |PrintInterface(i)| > 1 && HexDigit(PrintInterface(i)[1]) >= 0
  {
    hide MacOf, Tokens, SetupTokens, SetupOf, PrintMac, HexDigit;
    MacBack(i.mac);
    SetupBack(i);
    var parts := [PrintMac(i.mac)] + SetupTokens(i);
    TokensJoined(parts, ',');
    JoinedFirst(parts, ',');
    JoinedPlain(parts, ',', ' ');
    assert parts[1..] == SetupTokens(i);
  }

  lemma JoinedFirst(parts: seq<string>, c: char)
    requires parts != []
    ensures parts[0] <= Joined(parts, c)
  {
  }

  lemma {:induction false} JoinedPlain(parts: seq<string>, c: char, d: char)
    requires c != d && forall k :: 0 <= k < |parts| ==> d !in parts[k]
    ensures d !in Joined(parts, c)
  {
    if |parts| > 1 { JoinedPlain(parts[1..], c, d); }
  }

  // --- the network parameter ---

  datatype Network = Network(interfaces: seq<Interface>, dns: seq<string>)

  predicate WellFormedNetwork(n: Network) {
    && (forall k :: 0 <= k < |n.interfaces| ==> WellFormed(n.interfaces[k]))
    && (forall k :: 0 <= k < |n.dns| ==> IsValue(n.dns[k]))
  }

  function PrintInterfaces(s: seq<Interface>): (r: seq<string>)
    requires forall k :: 0 <= k < |s| ==> WellFormed(s[k])
  {
    if s == [] then [] else [PrintInterface(s[0])] + PrintInterfaces(s[1..])
  }

  /** `params_update_network_values` */
  function PrintNetwork(n: Network): (r: string)
    requires WellFormedNetwork(n)
  {
    Joined(PrintInterfaces(n.interfaces) + if n.dns == [] then [] else ["dns," + Joined(n.dns, ',')], ' ')
  }

  predicate IsDns(t: string) {
    |t| >= 4 && Lower(t[0]) == 'd' && Lower(t[1]) == 'n' && Lower(t[2]) == 's' && t[3] == ','
  }

  /** One token of the parameter; what cannot be parsed is skipped. */
  ghost function Add(n: Network, t: string): (r: Network) {
    if IsDns(t) then n.(dns := n.dns + Tokens(t[4..], ','))
    else if InterfaceOf(t).Some? then n.(interfaces := n.interfaces + [InterfaceOf(t).value])
    else n
  }

  ghost function AddAll(n: Network, tokens: seq<string>): (r: Network)
    decreases |tokens|
  {
    if tokens == [] then n else AddAll(Add(n, tokens[0]), tokens[1..])
  }

  /** `config_populate_network` */
  method PopulateNetwork(value: string) returns (n: Network)
    ensures n == AddAll(Network([], []), Tokens(value, ' '))
  {
    hide Tokens, InterfaceOf;
    n := Network([], []);
    var t := Tokens(value, ' ');
    var i := 0;
    assert t[0..] == t;
    while i < |t|
      invariant 0 <= i <= |t| && AddAll(Network([], []), t) == AddAll(n, t[i..])
    {
      assert t[i..][1..] == t[i + 1..];
      if IsDns(t[i]) {
        n := n.(dns := n.dns + Tokens(t[i][4..], ','));
      } else {
        var x := ParseInterface(t[i]);
        if x.Some? {
          n := n.(interfaces := n.interfaces + [x.value]);
        }
      }
      i := i + 1;
    }
  }

  function ArriveAll(s: seq<Interface>): (r: seq<Interface>) {
    seq(|s|, k requires 0 <= k < |s| => Arrives(s[k]))
  }

  lemma InterfaceAdded(n: Network, i: Interface)
    requires WellFormed(i)
    ensures Add(n, PrintInterface(i)) == n.(interfaces := n.interfaces + [Arrives(i)])
    ensures IsToken(PrintInterface(i), ' ')
  {
    hide InterfaceOf, PrintInterface, Arrives;
    InterfaceBack(i);
    NotDns(PrintInterface(i));
  }

  /** A hardware address does not look like the list of name servers. */
  lemma NotDns(t: string)
    requires |t| > 1 && HexDigit(t[1]) >= 0
    ensures !IsDns(t)
  {
  }

  lemma {:induction false} InterfacesAdded(n: Network, s: seq<Interface>, rest: seq<string>)
    requires forall k :: 0 <= k < |s| ==> WellFormed(s[k])
    ensures AddAll(n, PrintInterfaces(s) + rest) == AddAll(n.(interfaces := n.interfaces + ArriveAll(s)), rest)
    ensures forall k :: 0 <= k < |PrintInterfaces(s)| ==> IsToken(PrintInterfaces(s)[k], ' ')
    decreases |s|
  {
    hide Add, PrintInterface, Arrives, WellFormed, IsToken;
    if s == [] {
      assert PrintInterfaces(s) + rest == rest && n.interfaces + ArriveAll(s) == n.interfaces;
    } else {
      InterfaceAdded(n, s[0]);
      var m := Add(n, PrintInterface(s[0]));
      InterfacesAdded(m, s[1..], rest);
      hide AddAll, ArriveAll;
      AddFirst(n, PrintInterface(s[0]), PrintInterfaces(s[1..]), rest);
      ArriveFirst(n.interfaces, s);
    }
  }

  lemma AddFirst(n: Network, t: string, more: seq<string>, rest: seq<string>)
    ensures AddAll(n, [t] + more + rest) == AddAll(Add(n, t), more + rest)
  {
    hide Add;
    assert ([t] + more + rest)[1..] == more + rest;
  }

  lemma ArriveFirst(before: seq<Interface>, s: seq<Interface>)
    requires s != []
    ensures before + [Arrives(s[0])] + ArriveAll(s[1..]) == before + ArriveAll(s)
  {
    hide Arrives;
  }

  /**
   The parameter printed for a network configuration is read back as `Arrives` says of each
   interface, with the same name servers.
   */
  lemma {:induction false} NetworkBack(n: Network)
    requires WellFormedNetwork(n)
    ensures AddAll(Network([], []), Tokens(PrintNetwork(n), ' ')) == Network(ArriveAll(n.interfaces), n.dns)
  {
    hide Tokens, Add, ArriveAll, PrintInterfaces, WellFormed;
    var dns := if n.dns == [] then [] else ["dns," + Joined(n.dns, ',')];
    var parts := PrintInterfaces(n.interfaces) + dns;
    InterfacesAdded(Network([], []), n.interfaces, dns);
    if n.dns != [] { DnsAdded(Network(ArriveAll(n.interfaces), []), n.dns); }
    TokensJoined(parts, ' ');
    assert [] + ArriveAll(n.interfaces) == ArriveAll(n.interfaces);
    if n.dns != [] { assert dns[1..] == []; }
  }

  lemma DnsAdded(n: Network, dns: seq<string>)
    requires n.dns == [] && dns != [] && forall k :: 0 <= k < |dns| ==> IsValue(dns[k])
    ensures Add(n, "dns," + Joined(dns, ',')) == n.(dns := dns)
    ensures IsToken("dns," + Joined(dns, ','), ' ')
  {
    hide Tokens, Joined;
    TokensJoined(dns, ',');
    JoinedPlain(dns, ',', ' ');
    DnsToken(Joined(dns, ','));
    assert [] + dns == dns;
  }

  lemma DnsToken(list: string)
    ensures IsDns("dns," + list) && ("dns," + list)[4..] == list && (' ' !in list ==> ' ' !in "dns," + list)
  {
  }

  // --- the boot device parameter ---

  datatype DeviceType = NetworkType | Disk | Usb | Optical | Any | Luks | Unknown
  datatype Bootdev = OfType(kind: DeviceType) | OfUuid(uuid: string)

  function TypeName(kind: DeviceType): (r: string) {
    match kind
    case Disk => "disk"
    case Usb => "usb"
    case Optical => "optical"
    case NetworkType => "network"
    case Any => "any"
    case Luks => "encrypted"
    case Unknown => "unknown"
  }

  /** `find_device_type`: the first name that the string starts with. */
  function FindType(s: string): (r: DeviceType) {
    if "disk" <= s then Disk
    else if "usb" <= s then Usb
    else if "optical" <= s then Optical
    else if "network" <= s then NetworkType
    else if "any" <= s then Any
    else if "encrypted" <= s then Luks
    else Unknown
  }

  /**
   `read_bootdev`, of the text up to the next blank. For a type it does not know it looks
   at a field that nothing has set: `stale` if that says UUID, and then the text is one.
   */
  function BootdevOf(s: string, stale: bool): (r: Option<Bootdev>) {
    if "uuid:" <= s then if |s| == 5 then None else Some(OfUuid(s[5..]))
    else if "mac:" <= s then if |s| == 4 then None else Some(OfUuid(s[4..]))
    else if FindType(s) != Unknown then Some(OfType(FindType(s)))
    else if stale && s != "" then Some(OfUuid(s)) else None
  }

  /** Either prefix names a device by what follows, and nothing if nothing follows. */
  lemma PrefixMeans(x: string, stale: bool)
    ensures BootdevOf("uuid:" + x, stale) == BootdevOf("mac:" + x, stale) == if x == "" then None else Some(OfUuid(x))
  {
    var u, m := "uuid:" + x, "mac:" + x;
    assert u[5..] == x && m[4..] == x && "uuid:" <= u && "mac:" <= m && m[0] == 'm';
  }

  /** The entries from the n-th on; each has its own memory. */
  function BootdevsOf(s: string, stale: nat -> bool, n: nat): (r: seq<Bootdev>)
    decreases |s|
  {
    if s == "" then []
    else
      var k := Run(s, ' ', false);
      var o := BootdevOf(s[..k], stale(n));
      (if o.Some? then [o.value] else []) + BootdevsOf(if k < |s| then s[k + 1..] else "", stale, n + 1)
  }

  /** `config_populate_bootdev`: an empty result keeps the old list, unless autoboot is off. */
  method PopulateBootdev(value: string, stale: nat -> bool, before: seq<Bootdev>, autoboot: bool)
      returns (r: seq<Bootdev>)
    ensures var found := BootdevsOf(value, stale, 0);
      r == if found != [] then found else if autoboot then before else []
  {
    hide BootdevOf, BootdevsOf;
    r := [];
    var pos, n := value, 0;
    BootdevsEnd(BootdevsOf(value, stale, 0), stale, 0);
    while |pos| > 0
      invariant n >= 0 && BootdevsOf(value, stale, 0) == r + BootdevsOf(pos, stale, n)
      decreases |pos|
    {
      BootdevsStep(r, pos, stale, n);
      var k := Run(pos, ' ', false);
      var o := BootdevOf(pos[..k], stale(n));
      if o.Some? {
        r := r + [o.value];
      }
      pos := if k < |pos| then pos[k + 1..] else "";
      n := n + 1;
    }
    BootdevsEnd(r, stale, n);
    if r == [] && autoboot {
      r := before;
    }
  }

  lemma BootdevsStep(r: seq<Bootdev>, s: string, stale: nat -> bool, n: nat)
    requires s != ""
    ensures var k := Run(s, ' ', false);
      var o := BootdevOf(s[..k], stale(n));
      r + BootdevsOf(s, stale, n) ==
        (if o.Some? then r + [o.value] else r) + BootdevsOf(if k < |s| then s[k + 1..] else "", stale, n + 1)
  {
    hide BootdevOf, Run;
  }

  lemma BootdevsEnd(r: seq<Bootdev>, stale: nat -> bool, n: nat)
    ensures r + BootdevsOf("", stale, n) == r == [] + r
  {
  }

  function PrintBootdev(o: Bootdev): (r: string) {
    match o
    case OfType(kind) => TypeName(kind)
    case OfUuid(uuid) => "uuid:" + uuid
  }

  /** `params_update_bootdev_values`: a blank behind every entry. */
  function PrintBootdevs(s: seq<Bootdev>): (r: string) {
    if s == [] then "" else PrintBootdev(s[0]) + " " + PrintBootdevs(s[1..])
  }

  /** An entry that is read back: a known type, or a UUID that is not empty. */
  predicate Legible(o: Bootdev) {
    match o
    case OfType(kind) => kind != Unknown
    case OfUuid(uuid) => uuid != ""
  }

  /** What an entry is read back as: an illegible type is skipped, or taken for a UUID. */
  function ReadBack(o: Bootdev, stale: bool): (r: seq<Bootdev>) {
    if Legible(o) then [o] else if o.OfType? && stale then [OfUuid(TypeName(Unknown))] else []
  }

  function AllReadBack(s: seq<Bootdev>, stale: nat -> bool, n: nat): (r: seq<Bootdev>)
    decreases |s|
  {
    if s == [] then [] else ReadBack(s[0], stale(n)) + AllReadBack(s[1..], stale, n + 1)
  }

  lemma BootdevBack(o: Bootdev, stale: bool)
    requires o.OfUuid? ==> ' ' !in o.uuid
    ensures var r := BootdevOf(PrintBootdev(o), stale); ReadBack(o, stale) == (if r.Some? then [r.value] else [])
    ensures ' ' !in PrintBootdev(o)
  {
    match o
    case OfType(kind) => TypeBack(kind, stale);
    case OfUuid(uuid) => assert ("uuid:" + uuid)[5..] == uuid;
  }

  lemma NotPrefix(p: string, s: string, i: nat)
    requires i < |p| && (i < |s| ==> p[i] != s[i])
    ensures !(p <= s)
  {
  }

  lemma TypeBack(kind: DeviceType, stale: bool)
    ensures BootdevOf(TypeName(kind), stale) ==
      (if kind != Unknown then Some(OfType(kind)) else if stale then Some(OfUuid(TypeName(Unknown))) else None)
    ensures ' ' !in TypeName(kind)
  {
    var s := TypeName(kind);
    NotPrefix("uuid:", s, if kind == Usb || kind == Unknown then 1 else 0);
    NotPrefix("mac:", s, 0);
    if kind != Disk { NotPrefix("disk", s, 0); }
    if kind != Usb { NotPrefix("usb", s, if kind == Unknown then 1 else 0); }
    if kind != Optical { NotPrefix("optical", s, 0); }
    if kind != NetworkType { NotPrefix("network", s, 0); }
    if kind != Any { NotPrefix("any", s, 0); }
    if kind != Luks { NotPrefix("encrypted", s, 0); }
  }

  /** Each entry comes back as `ReadBack` says, in order, whatever the memory held. */
  lemma {:induction false} BootdevsBack(s: seq<Bootdev>, stale: nat -> bool, n: nat)
    requires forall k :: 0 <= k < |s| && s[k].OfUuid? ==> ' ' !in s[k].uuid
    ensures BootdevsOf(PrintBootdevs(s), stale, n) == AllReadBack(s, stale, n)
    decreases |s|
  {
    if s != [] {
      hide BootdevOf, BootdevsOf, PrintBootdev, ReadBack;
      BootdevBack(s[0], stale(n));
      BootdevsBack(s[1..], stale, n + 1);
      BootdevsFirst(PrintBootdev(s[0]), PrintBootdevs(s[1..]), stale, n);
    } else {
      BootdevsEnd([], stale, n);
    }
  }

  lemma {:induction false} BootdevsFirst(p: string, rest: string, stale: nat -> bool, n: nat)
    requires ' ' !in p
    ensures var o := BootdevOf(p, stale(n));
      BootdevsOf(p + " " + rest, stale, n) == (if o.Some? then [o.value] else []) + BootdevsOf(rest, stale, n + 1)
  {
    hide BootdevOf, Run;
    var all := p + " " + rest;
    forall k | 0 <= k < |p| ensures all[k] != ' ' { assert all[k] == p[k]; }
    RunIs(all, ' ', false, |p|);
    assert all[..|p|] == p && all[|p| + 1..] == rest;
  }

  /** So a list comes back unchanged if and only if every entry is legible, whatever the memory held. */
  lemma {:induction false} LegibleIff(s: seq<Bootdev>, stale: nat -> bool, n: nat)
    ensures |AllReadBack(s, stale, n)| <= |s|
    ensures AllReadBack(s, stale, n) == s <==> forall k :: 0 <= k < |s| ==> Legible(s[k])
    decreases |s|
  {
    if s != [] {
      LegibleIff(s[1..], stale, n + 1);
      var head, rest := ReadBack(s[0], stale(n)), AllReadBack(s[1..], stale, n + 1);
      assert s == [s[0]] + s[1..];
      if |head| == 1 {
        assert (head + rest)[0] == head[0] && (head + rest)[1..] == rest;
      }
      if forall k :: 0 <= k < |s[1..]| ==> Legible(s[1..][k]) {
        forall k | 0 < k < |s| ensures Legible(s[k]) { assert s[k] == s[1..][k - 1]; }
      }
      if forall k :: 0 <= k < |s| ==> Legible(s[k]) {
        forall k | 0 <= k < |s[1..]| ensures Legible(s[1..][k]) { assert s[1..][k] == s[k + 1]; }
      }
    }
  }

  /** Printing and reading back: exactly the lists of legible entries survive; an empty one leaves the old list. */
  method BootdevRoundTrip(s: seq<Bootdev>, stale: nat -> bool, before: seq<Bootdev>, autoboot: bool)
      returns (r: seq<Bootdev>)
    requires forall k :: 0 <= k < |s| && s[k].OfUuid? ==> ' ' !in s[k].uuid
    ensures (forall k :: 0 <= k < |s| ==> Legible(s[k])) ==> r == if s == [] && autoboot then before else s
    ensures r == s && r != before ==> forall k :: 0 <= k < |s| ==> Legible(s[k])
  {
    hide BootdevsOf, AllReadBack, PrintBootdevs, Legible;
    BootdevsBack(s, stale, 0);
    LegibleIff(s, stale, 0);
    var val := UpdateBootdevValues(s);
    r := PopulateBootdev(val, stale, before, autoboot);
  }

  // --- printing step by step ---

  lemma {:induction false} JoinedMore(parts: seq<string>, x: string, c: char)
    ensures Joined(parts + [x], c) == if parts == [] then x else Joined(parts, c) + [c] + x
  {
    if |parts| == 0 {
      assert parts + [x] == [x];
    } else {
      var all := parts + [x];
      assert all[1..] == parts[1..] + [x];
      JoinedMore(parts[1..], x, c);
      if |parts| == 1 {
        assert parts[1..] == [];
      } else {
        assert parts[0] + [c] + (Joined(parts[1..], c) + [c] + x) == parts[0] + [c] + Joined(parts[1..], c) + [c] + x;
      }
    }
  }

  lemma JoinedEmpty(parts: seq<string>, c: char)
    requires forall k :: 0 <= k < |parts| ==> parts[k] != ""
    ensures Joined(parts, c) == "" <==> parts == []
  {
  }

  lemma {:induction false} PrintMore(s: seq<Interface>, i: nat)
    requires i < |s| && forall k :: 0 <= k < |s| ==> WellFormed(s[k])
    ensures PrintInterfaces(s[..i + 1]) == PrintInterfaces(s[..i]) + [PrintInterface(s[i])]
  {
    hide PrintInterface, WellFormed;
    if i > 0 {
      PrintMore(s[1..], i - 1);
      assert s[1..][..i] == s[..i + 1][1..] && s[1..][..i - 1] == s[..i][1..];
    } else {
      assert s[..1][1..] == [];
    }
  }

  /** A blank goes in front of everything but the first entry. */
  method Append(val: string, entry: string, ghost parts: seq<string>) returns (r: string)
    requires val == Joined(parts, ' ') && forall k :: 0 <= k < |parts| ==> parts[k] != ""
    ensures r == Joined(parts + [entry], ' ')
  {
    JoinedMore(parts, entry, ' ');
    JoinedEmpty(parts, ' ');
    r := val + (if val == "" then "" else " ") + entry;
  }

  /** `params_update_network_values` */
  method UpdateNetworkValues(n: Network) returns (val: string)
    requires WellFormedNetwork(n)
    ensures val == PrintNetwork(n)
  {
    hide PrintInterface, WellFormed, Joined, IsValue;
    val := "";
    ghost var parts: seq<string> := [];
    JoinedEmpty(parts, ' ');
    var i := 0;
    while i < |n.interfaces|
      invariant 0 <= i <= |n.interfaces| && parts == PrintInterfaces(n.interfaces[..i]) && val == Joined(parts, ' ')
      invariant forall k :: 0 <= k < |parts| ==> parts[k] != ""
    {
      PrintMore(n.interfaces, i);
      InterfaceBack(n.interfaces[i]);
      val := Append(val, PrintInterface(n.interfaces[i]), parts);
      parts := parts + [PrintInterface(n.interfaces[i])];
      i := i + 1;
    }
    assert n.interfaces[..i] == n.interfaces;
    if |n.dns| > 0 {
      val := Append(val, "dns," + Joined(n.dns, ','), parts);
    } else {
      assert parts + [] == parts;
    }
  }

  /** `params_update_bootdev_values` */
  method UpdateBootdevValues(s: seq<Bootdev>) returns (val: string)
    ensures val == PrintBootdevs(s)
  {
    hide PrintBootdev;
    val := "";
    var i := 0;
    assert s[0..] == s;
    while i < |s|
      invariant 0 <= i <= |s| && val + PrintBootdevs(s[i..]) == PrintBootdevs(s)
    {
      assert s[i..][1..] == s[i + 1..];
      ghost var before, rest := val, PrintBootdevs(s[i + 1..]);
      val := val + (PrintBootdev(s[i]) + " ");
      assert before + (PrintBootdev(s[i]) + " " + rest) == val + rest;
      i := i + 1;
    }
  }
}
