/**
 The configuration message (lib/pb-protocol/pb-protocol.c): how long it is, what is
 written, and what the receiver makes of it.
 */
module ProtocolConfig {
  import opened Common
  import opened Wire

  const STATIC: int := 1
  const DEVICE_TYPE: int := 0

  /** Method 1 is the static one: its addresses arrive, and no other method has any. */
  lemma StaticArrives(i: Interface)
    requires !i.ignore
    ensures i.configMethod == 1 ==>
      ArrivesInterface(i) == i.(address := Arrives(i.address), gateway := Arrives(i.gateway), url := Arrives(i.url))
    ensures i.configMethod != 1 ==> ArrivesInterface(i) == i.(address := None, gateway := None, url := None)
  {
  }

  datatype Interface = Interface(hwaddr: Bytes, ignore: bool, configMethod: int, address: CString, gateway: CString,
      url: CString, override: bool)

  /** A device type, or (for any other kind of entry) a UUID. */
  datatype AutobootOption = OfType(deviceType: int) | OfUuid(bootType: int, uuid: CString)

  datatype Config = Config(
    autobootEnabled: bool, timeoutSec: int, safeMode: bool, interfaces: seq<Interface>, dnsServers: seq<CString>,
    httpProxy: CString, httpsProxy: CString, autobootOptions: seq<AutobootOption>,
    ipmiBootdev: int, ipmiPersistent: bool, ipmiMailbox: bool, allowWrites: bool,
    consoles: seq<CString>, bootConsole: CString, manualConsole: bool, lang: CString, prebootCheck: bool,
    disableSnapshots: bool, debug: bool)

  // --- what can be sent, and what arrives ---

  predicate IsU32(v: int) {
    0 <= v < TWO32
  }

  ghost predicate SendableInterface(i: Interface) {
    |i.hwaddr| == HWADDR_SIZE && IsU32(i.configMethod) && Sendable(i.address) && Sendable(i.gateway) && Sendable(i.url)
  }

  ghost predicate SendableOption(o: AutobootOption) {
    match o
    case OfType(t) => IsU32(t)
    case OfUuid(b, uuid) => IsU32(b) && b != DEVICE_TYPE && Sendable(uuid)
  }

  ghost predicate SendableConfig(c: Config) {
    && IsU32(c.timeoutSec) && IsU32(c.ipmiBootdev)
    && |c.interfaces| < TWO32 && (forall k :: 0 <= k < |c.interfaces| ==> SendableInterface(c.interfaces[k]))
    && |c.autobootOptions| < TWO32
    && (forall k :: 0 <= k < |c.autobootOptions| ==> SendableOption(c.autobootOptions[k]))
    && AllSendable(c.dnsServers) && AllSendable(c.consoles)
    && Sendable(c.httpProxy) && Sendable(c.httpsProxy) && Sendable(c.bootConsole) && Sendable(c.lang)
  }

  /** An ignored interface keeps its address only; addresses are sent for the static method only. */
  function ArrivesInterface(i: Interface): (r: Interface) {
    if i.ignore then Interface(i.hwaddr, true, 0, None, None, None, false)
    else if i.configMethod == STATIC then
      i.(address := Arrives(i.address), gateway := Arrives(i.gateway), url := Arrives(i.url))
    else i.(address := None, gateway := None, url := None)
  }

  function ArrivesOption(o: AutobootOption): (r: AutobootOption) {
    if o.OfType? then o else o.(uuid := Arrives(o.uuid))
  }

  /** Two fields are not sent at all. */
  function ArrivesConfig(c: Config): (r: Config) {
    c.(interfaces := ArriveInterfaces(c.interfaces), autobootOptions := ArriveOptions(c.autobootOptions),
       dnsServers := ArriveAll(c.dnsServers), consoles := ArriveAll(c.consoles),
       httpProxy := Arrives(c.httpProxy), httpsProxy := Arrives(c.httpsProxy),
       bootConsole := Arrives(c.bootConsole), lang := Arrives(c.lang),
       disableSnapshots := false, debug := false)
  }

  /** Sending what has arrived changes nothing more. */
  lemma ArrivesTwice(c: Config)
    ensures ArrivesConfig(ArrivesConfig(c)) == ArrivesConfig(c)
  {
    var d := ArrivesConfig(c);
    var e := ArrivesConfig(d);
    assert e.interfaces == d.interfaces && e.autobootOptions == d.autobootOptions;
    assert e.dnsServers == d.dnsServers && e.consoles == d.consoles;
  }

  // --- one interface ---

  ghost function BodyChunks(i: Interface, big: bool): (r: seq<Bytes>)
    requires SendableInterface(i)
  {
    if i.configMethod == STATIC then
      [PutU32(i.configMethod), PutString(i.address), PutString(i.gateway), PutString(i.url), PutFlag(i.override, big)]
    else [PutU32(i.configMethod), PutFlag(i.override, big)]
  }

  ghost function PutInterface(i: Interface, big: bool): (r: Bytes)
    requires SendableInterface(i)
  {
    i.hwaddr + (PutFlag(i.ignore, big) + if i.ignore then [] else Join(BodyChunks(i, big)))
  }

  function ReadInterface(b: Bytes): (r: Result<(Interface, Bytes)>) {
    var (hwaddr, b) :- ReadRaw(b, HWADDR_SIZE);
    var (ignore, b) :- ReadFlag(b);
    if ignore then Success((Interface(hwaddr, true, 0, None, None, None, false), b)) else ReadBody(hwaddr, b)
  }

  function ReadBody(hwaddr: Bytes, b: Bytes): (r: Result<(Interface, Bytes)>) {
    var (configMethod, b) :- ReadU32(b);
    var ((address, gateway, url), b) :- ReadStatic(b, configMethod == STATIC);
    var (override, b) :- ReadFlag(b);
    Success((Interface(hwaddr, false, configMethod, address, gateway, url, override), b))
  }

  function ReadStatic(b: Bytes, present: bool): (r: Result<((CString, CString, CString), Bytes)>) {
    if !present then Success(((None, None, None), b))
    else
      var (address, b) :- ReadString(b);
      var (gateway, b) :- ReadString(b);
      var (url, b) :- ReadString(b);
      Success(((address, gateway, url), b))
  }

  lemma BodyBack(i: Interface, big: bool, rest: Bytes)
    requires SendableInterface(i) && !i.ignore
    ensures ReadBody(i.hwaddr, Join(BodyChunks(i, big)) + rest) == Success((ArrivesInterface(i), rest))
  {
    hide Join, PutFlag, ReadFlag, PutU32, ReadU32, PutString, ReadString, Sendable, Arrives;
    var c := BodyChunks(i, big);
    JoinDone(c, rest);
    JoinStep(c, 0, rest);
    U32Back(i.configMethod, Join(c[1..]) + rest);
    JoinStep(c, 1, rest);
    if i.configMethod == STATIC {
      StringBack(i.address, Join(c[2..]) + rest);
      JoinStep(c, 2, rest);
      StringBack(i.gateway, Join(c[3..]) + rest);
      JoinStep(c, 3, rest);
      StringBack(i.url, Join(c[4..]) + rest);
      JoinStep(c, 4, rest);
      FlagBack(i.override, big, Join(c[5..]) + rest);
    } else {
      FlagBack(i.override, big, Join(c[2..]) + rest);
    }
  }

  lemma InterfaceBack(i: Interface, big: bool, rest: Bytes)
    requires SendableInterface(i)
    ensures ReadInterface(PutInterface(i, big) + rest) == Success((ArrivesInterface(i), rest))
  {
    hide Join, PutFlag, ReadFlag, ReadBody, BodyChunks;
    var body := if i.ignore then [] else Join(BodyChunks(i, big));
    var b := PutInterface(i, big) + rest;
    assert b == i.hwaddr + (PutFlag(i.ignore, big) + (body + rest));
    assert b[..HWADDR_SIZE] == i.hwaddr && b[HWADDR_SIZE..] == PutFlag(i.ignore, big) + (body + rest);
    FlagBack(i.ignore, big, body + rest);
    if i.ignore {
      assert body + rest == rest;
    } else {
      BodyBack(i, big, rest);
    }
  }

  // --- lists of interfaces and of autoboot options ---

  ghost predicate SendableInterfaces(s: seq<Interface>) {
    forall k :: 0 <= k < |s| ==> SendableInterface(s[k])
  }

  ghost function PutInterfaces(s: seq<Interface>, big: bool): (r: Bytes)
    requires SendableInterfaces(s)
  {
    if s == [] then [] else PutInterface(s[0], big) + PutInterfaces(s[1..], big)
  }

  function ReadInterfaces(b: Bytes, n: nat): (r: Result<(seq<Interface>, Bytes)>)
    decreases n
  {
    if n == 0 then Success(([], b))
    else
      var (i, b) :- ReadInterface(b);
      var (more, b) :- ReadInterfaces(b, n - 1);
      Success(([i] + more, b))
  }

  function ArriveInterfaces(s: seq<Interface>): (r: seq<Interface>) {
    seq(|s|, k requires 0 <= k < |s| => ArrivesInterface(s[k]))
  }

  lemma {:induction false} InterfacesBack(s: seq<Interface>, big: bool, rest: Bytes)
    requires SendableInterfaces(s)
    ensures ReadInterfaces(PutInterfaces(s, big) + rest, |s|) == Success((ArriveInterfaces(s), rest))
  {
    hide PutInterface, ReadInterface, ArrivesInterface, SendableInterface, PutInterfaces, ReadInterfaces,
      ArriveInterfaces;
    if s == [] {
      NoInterfaces(big, rest);
    } else {
      InterfacesBack(s[1..], big, rest);
      InterfaceBack(s[0], big, PutInterfaces(s[1..], big) + rest);
      InterfacesFirst(s, big, rest);
      ArriveInterfacesFirst(s);
      InterfacesStep(PutInterfaces(s, big) + rest, |s|, ArrivesInterface(s[0]), PutInterfaces(s[1..], big) + rest,
        ArriveInterfaces(s[1..]), rest);
    }
  }

  lemma NoInterfaces(big: bool, rest: Bytes)
    ensures PutInterfaces([], big) + rest == rest && ArriveInterfaces([]) == []
      && ReadInterfaces(rest, 0) == Success(([], rest))
  {
    assert [] + rest == rest;
  }

  lemma ArriveInterfacesFirst(s: seq<Interface>)
    requires s != []
    ensures ArriveInterfaces(s) == [ArrivesInterface(s[0])] + ArriveInterfaces(s[1..])
  {
  }

  lemma {:induction false} InterfacesStep(b: Bytes, n: nat, x: Interface, b1: Bytes, more: seq<Interface>, b2: Bytes)
    requires n > 0 && ReadInterface(b) == Success((x, b1)) && ReadInterfaces(b1, n - 1) == Success((more, b2))
    ensures ReadInterfaces(b, n) == Success(([x] + more, b2))
  {
    hide ReadInterface;
  }

  lemma InterfacesFirst(s: seq<Interface>, big: bool, rest: Bytes)
    requires SendableInterfaces(s) && s != []
    ensures PutInterfaces(s, big) + rest == PutInterface(s[0], big) + (PutInterfaces(s[1..], big) + rest)
  {
    hide PutInterface;
  }

  function PutOption(o: AutobootOption): (r: Bytes)
    requires SendableOption(o)
  {
    match o
    case OfType(t) => PutU32(DEVICE_TYPE) + PutU32(t)
    case OfUuid(bootType, uuid) => PutU32(bootType) + PutString(uuid)
  }

  function ReadOption(b: Bytes): (r: Result<(AutobootOption, Bytes)>) {
    var (bootType, b) :- ReadU32(b);
    if bootType == DEVICE_TYPE then
      var (t, b) :- ReadU32(b);
      Success((OfType(t), b))
    else
      var (uuid, b) :- ReadString(b);
      Success((OfUuid(bootType, uuid), b))
  }

  lemma OptionBack(o: AutobootOption, rest: Bytes)
    requires SendableOption(o)
    ensures ReadOption(PutOption(o) + rest) == Success((ArrivesOption(o), rest))
  {
    hide PutU32, ReadU32, PutString, ReadString, Sendable, Arrives;
    match o
    case OfType(t) =>
      assert PutOption(o) + rest == PutU32(DEVICE_TYPE) + (PutU32(t) + rest);
      U32Back(DEVICE_TYPE, PutU32(t) + rest);
      U32Back(t, rest);
    case OfUuid(bootType, uuid) =>
      assert PutOption(o) + rest == PutU32(bootType) + (PutString(uuid) + rest);
      U32Back(bootType, PutString(uuid) + rest);
      StringBack(uuid, rest);
  }

  ghost predicate SendableOptions(s: seq<AutobootOption>) {
    forall k :: 0 <= k < |s| ==> SendableOption(s[k])
  }

  ghost function PutOptions(s: seq<AutobootOption>): (r: Bytes)
    requires SendableOptions(s)
  {
    if s == [] then [] else PutOption(s[0]) + PutOptions(s[1..])
  }

  function ReadOptions(b: Bytes, n: nat): (r: Result<(seq<AutobootOption>, Bytes)>)
    decreases n
  {
    if n == 0 then Success(([], b))
    else
      var (o, b) :- ReadOption(b);
      var (more, b) :- ReadOptions(b, n - 1);
      Success(([o] + more, b))
  }

  function ArriveOptions(s: seq<AutobootOption>): (r: seq<AutobootOption>) {
    seq(|s|, k requires 0 <= k < |s| => ArrivesOption(s[k]))
  }

  lemma {:induction false} OptionsBack(s: seq<AutobootOption>, rest: Bytes)
    requires SendableOptions(s)
    ensures ReadOptions(PutOptions(s) + rest, |s|) == Success((ArriveOptions(s), rest))
  {
    hide PutOption, ReadOption, ArrivesOption, SendableOption, PutOptions, ReadOptions, ArriveOptions;
    if s == [] {
      NoOptions(rest);
    } else {
      OptionsBack(s[1..], rest);
      OptionBack(s[0], PutOptions(s[1..]) + rest);
      OptionsFirst(s, rest);
      ArriveOptionsFirst(s);
      OptionsStep(PutOptions(s) + rest, |s|, ArrivesOption(s[0]), PutOptions(s[1..]) + rest, ArriveOptions(s[1..]),
        rest);
    }
  }

  lemma NoOptions(rest: Bytes)
    ensures PutOptions([]) + rest == rest && ArriveOptions([]) == [] && ReadOptions(rest, 0) == Success(([], rest))
  {
    assert [] + rest == rest;
  }

  lemma ArriveOptionsFirst(s: seq<AutobootOption>)
    requires s != []
    ensures ArriveOptions(s) == [ArrivesOption(s[0])] + ArriveOptions(s[1..])
  {
  }

  lemma {:induction false} OptionsStep(b: Bytes, n: nat, x: AutobootOption, b1: Bytes, more: seq<AutobootOption>,
      b2: Bytes)
    requires n > 0 && ReadOption(b) == Success((x, b1)) && ReadOptions(b1, n - 1) == Success((more, b2))
    ensures ReadOptions(b, n) == Success(([x] + more, b2))
  {
    hide ReadOption;
  }

  lemma OptionsFirst(s: seq<AutobootOption>, rest: Bytes)
    requires SendableOptions(s) && s != []
    ensures PutOptions(s) + rest == PutOption(s[0]) + (PutOptions(s[1..]) + rest)
  {
    hide PutOption;
  }

  // --- the whole message ---

  ghost function HeadChunks(c: Config, big: bool): (r: seq<Bytes>)
    requires SendableConfig(c)
  {
    [PutFlag(c.autobootEnabled, big), PutU32(c.timeoutSec), PutFlag(c.safeMode, big),
     PutU32(|c.interfaces|), PutInterfaces(c.interfaces, big), PutU32(|c.dnsServers|), PutStrings(c.dnsServers)]
  }

  ghost function MiddleChunks(c: Config, big: bool): (r: seq<Bytes>)
    requires SendableConfig(c)
  {
    [PutString(c.httpProxy), PutString(c.httpsProxy), PutU32(|c.autobootOptions|), PutOptions(c.autobootOptions),
     PutU32(c.ipmiBootdev), PutFlag(c.ipmiPersistent, big), PutFlag(c.ipmiMailbox, big), PutFlag(c.allowWrites, big)]
  }

  ghost function TailChunks(c: Config, big: bool): (r: seq<Bytes>)
    requires SendableConfig(c)
  {
    [PutU32(|c.consoles|), PutStrings(c.consoles), PutString(c.bootConsole), PutFlag(c.manualConsole, big),
     PutString(c.lang), PutFlag(c.prebootCheck, big)]
  }

  ghost function PutConfig(c: Config, big: bool): (r: Bytes)
    requires SendableConfig(c)
  {
    Join(HeadChunks(c, big)) + (Join(MiddleChunks(c, big)) + Join(TailChunks(c, big)))
  }

  /** Where the first fields are, four bytes each. */
  lemma HeadLayout(c: Config, big: bool)
    requires SendableConfig(c)
    ensures var b := PutConfig(c, big);
      && |b| >= 16 && b[0..4] == PutFlag(c.autobootEnabled, big) && b[4..8] == PutU32(c.timeoutSec)
      && b[8..12] == PutFlag(c.safeMode, big) && b[12..16] == PutU32(|c.interfaces|)
  {
    hide Join, PutFlag, PutU32, PutInterfaces, PutStrings;
    var k, rest := HeadChunks(c, big), Join(MiddleChunks(c, big)) + Join(TailChunks(c, big));
    JoinDone(k, rest);
    JoinStep(k, 0, rest);
    JoinStep(k, 1, rest);
    JoinStep(k, 2, rest);
    JoinStep(k, 3, rest);
    FourParts(k[0], k[1], k[2], k[3], Join(k[4..]) + rest);
  }

  lemma FourParts(p: Bytes, q: Bytes, x: Bytes, y: Bytes, rest: Bytes)
    requires |p| == |q| == |x| == |y| == 4
    ensures var b := p + (q + (x + (y + rest)));
      |b| >= 16 && b[0..4] == p && b[4..8] == q && b[8..12] == x && b[12..16] == y
  {
  }

  /** A configuration of which nothing is known yet. */
  function Blank(): (c: Config) {
    Config(false, 0, false, [], [], None, None, [], 0, false, false, false, [], None, false, None, false, false, false)
  }

  function ReadHead(c: Config, b: Bytes): (r: Result<(Config, Bytes)>) {
    var (autobootEnabled, b) :- ReadFlag(b);
    var (timeoutSec, b) :- ReadU32(b);
    var (safeMode, b) :- ReadFlag(b);
    var (n, b) :- ReadU32(b);
    var (interfaces, b) :- ReadInterfaces(b, n);
    var (m, b) :- ReadU32(b);
    var (dnsServers, b) :- ReadStrings(b, m);
    Success((c.(autobootEnabled := autobootEnabled, timeoutSec := timeoutSec, safeMode := safeMode,
                interfaces := interfaces, dnsServers := dnsServers), b))
  }

  function ReadMiddle(c: Config, b: Bytes): (r: Result<(Config, Bytes)>) {
    var (httpProxy, b) :- ReadString(b);
    var (httpsProxy, b) :- ReadString(b);
    var (n, b) :- ReadU32(b);
    var (autobootOptions, b) :- ReadOptions(b, n);
    var (ipmiBootdev, b) :- ReadU32(b);
    var (ipmiPersistent, b) :- ReadFlag(b);
    var (ipmiMailbox, b) :- ReadFlag(b);
    var (allowWrites, b) :- ReadFlag(b);
    Success((c.(httpProxy := httpProxy, httpsProxy := httpsProxy, autobootOptions := autobootOptions,
                ipmiBootdev := ipmiBootdev,
                ipmiPersistent := ipmiPersistent, ipmiMailbox := ipmiMailbox, allowWrites := allowWrites), b))
  }

  function ReadTail(c: Config, b: Bytes): (r: Result<(Config, Bytes)>) {
    var (n, b) :- ReadU32(b);
    var (consoles, b) :- ReadStrings(b, n);
    var (bootConsole, b) :- ReadString(b);
    var (manualConsole, b) :- ReadFlag(b);
    var (lang, b) :- ReadString(b);
    var (prebootCheck, b) :- ReadFlag(b);
    Success((c.(consoles := consoles, bootConsole := bootConsole, manualConsole := manualConsole,
                lang := lang, prebootCheck := prebootCheck), b))
  }

  function ReadConfig(b: Bytes): (r: Result<(Config, Bytes)>) {
    var (c, b) :- ReadHead(Blank(), b);
    var (c, b) :- ReadMiddle(c, b);
    ReadTail(c, b)
  }

  lemma HeadBack(c: Config, big: bool, d: Config, rest: Bytes)
    requires SendableConfig(c)
    ensures ReadHead(d, Join(HeadChunks(c, big)) + rest) ==
      Success((d.(autobootEnabled := c.autobootEnabled, timeoutSec := c.timeoutSec, safeMode := c.safeMode,
                  interfaces := ArriveInterfaces(c.interfaces), dnsServers := ArriveAll(c.dnsServers)), rest))
  {
    hide Join, PutFlag, ReadFlag, PutU32, ReadU32, PutStrings, ReadStrings, PutInterfaces, ReadInterfaces,
      ArriveInterfaces, ArriveAll;
    var k := HeadChunks(c, big);
    JoinDone(k, rest);
    JoinStep(k, 0, rest); FlagBack(c.autobootEnabled, big, Join(k[1..]) + rest);
    JoinStep(k, 1, rest); U32Back(c.timeoutSec, Join(k[2..]) + rest);
    JoinStep(k, 2, rest); FlagBack(c.safeMode, big, Join(k[3..]) + rest);
    JoinStep(k, 3, rest); U32Back(|c.interfaces|, Join(k[4..]) + rest);
    JoinStep(k, 4, rest); InterfacesBack(c.interfaces, big, Join(k[5..]) + rest);
    JoinStep(k, 5, rest); U32Back(|c.dnsServers|, Join(k[6..]) + rest);
    JoinStep(k, 6, rest); StringsBack(c.dnsServers, Join(k[7..]) + rest);
  }

  lemma MiddleBack(c: Config, big: bool, d: Config, rest: Bytes)
    requires SendableConfig(c)
    ensures ReadMiddle(d, Join(MiddleChunks(c, big)) + rest) ==
      Success((d.(httpProxy := Arrives(c.httpProxy), httpsProxy := Arrives(c.httpsProxy),
                  autobootOptions := ArriveOptions(c.autobootOptions),
                  ipmiBootdev := c.ipmiBootdev, ipmiPersistent := c.ipmiPersistent, ipmiMailbox := c.ipmiMailbox,
                  allowWrites := c.allowWrites), rest))
  {
    hide Join, PutFlag, ReadFlag, PutU32, ReadU32, PutString, ReadString, PutOptions, ReadOptions, ArriveOptions,
      Arrives, Sendable;
    var k := MiddleChunks(c, big);
    JoinDone(k, rest);
    JoinStep(k, 0, rest); StringBack(c.httpProxy, Join(k[1..]) + rest);
    JoinStep(k, 1, rest); StringBack(c.httpsProxy, Join(k[2..]) + rest);
    JoinStep(k, 2, rest); U32Back(|c.autobootOptions|, Join(k[3..]) + rest);
    JoinStep(k, 3, rest); OptionsBack(c.autobootOptions, Join(k[4..]) + rest);
    JoinStep(k, 4, rest); U32Back(c.ipmiBootdev, Join(k[5..]) + rest);
    JoinStep(k, 5, rest); FlagBack(c.ipmiPersistent, big, Join(k[6..]) + rest);
    JoinStep(k, 6, rest); FlagBack(c.ipmiMailbox, big, Join(k[7..]) + rest);
    JoinStep(k, 7, rest); FlagBack(c.allowWrites, big, Join(k[8..]) + rest);
  }

  lemma TailBack(c: Config, big: bool, d: Config, rest: Bytes)
    requires SendableConfig(c)
    ensures ReadTail(d, Join(TailChunks(c, big)) + rest) ==
      Success((d.(consoles := ArriveAll(c.consoles), bootConsole := Arrives(c.bootConsole),
                  manualConsole := c.manualConsole,
                  lang := Arrives(c.lang), prebootCheck := c.prebootCheck), rest))
  {
    hide Join, PutFlag, ReadFlag, PutU32, ReadU32, PutString, ReadString, PutStrings, ReadStrings, ArriveAll, Arrives,
      Sendable;
    var k := TailChunks(c, big);
    JoinDone(k, rest);
    JoinStep(k, 0, rest); U32Back(|c.consoles|, Join(k[1..]) + rest);
    JoinStep(k, 1, rest); StringsBack(c.consoles, Join(k[2..]) + rest);
    JoinStep(k, 2, rest); StringBack(c.bootConsole, Join(k[3..]) + rest);
    JoinStep(k, 3, rest); FlagBack(c.manualConsole, big, Join(k[4..]) + rest);
    JoinStep(k, 4, rest); StringBack(c.lang, Join(k[5..]) + rest);
    JoinStep(k, 5, rest); FlagBack(c.prebootCheck, big, Join(k[6..]) + rest);
  }

  /** Every configuration that can be sent arrives, in normal form, whatever the byte order of the sender. */
  lemma ConfigBack(c: Config, big: bool)
    requires SendableConfig(c)
    ensures ReadConfig(PutConfig(c, big)) == Success((ArrivesConfig(c), []))
  {
    hide HeadChunks, MiddleChunks, TailChunks, ReadHead, ReadMiddle, ReadTail, SendableConfig;
    var tail := Join(TailChunks(c, big));
    var middle := Join(MiddleChunks(c, big));
    HeadBack(c, big, Blank(), middle + tail);
    var d := ReadHead(Blank(), PutConfig(c, big)).value.0;
    MiddleBack(c, big, d, tail);
    var e := ReadMiddle(d, middle + tail).value.0;
    TailBack(c, big, e, []);
    assert tail + [] == tail;
  }

  // --- writing it, and knowing beforehand how much will be written ---

  /** `pb_protocol_serialise_config_interface` */
  method SerialiseInterface(i: Interface, big: bool) returns (out: Bytes)
    requires SendableInterface(i)
    ensures out == PutInterface(i, big)
  {
    hide Join, PutFlag, BodyChunks;
    out := i.hwaddr;
    out := out + PutFlag(i.ignore, big);
    Regroup(PutFlag(i.ignore, big), [], []);
    if i.ignore {
      return;
    }
    var body := SerialiseBody(i, big);
    Regroup(i.hwaddr, PutFlag(i.ignore, big), body);
    out := out + body;
  }

  method SerialiseBody(i: Interface, big: bool) returns (body: Bytes)
    requires SendableInterface(i)
    ensures body == Join(BodyChunks(i, big))
  {
    hide Join, PutFlag, PutU32, PutString;
    ghost var k := BodyChunks(i, big);
    JoinNone(k);
    body := [];
    body := body + PutU32(i.configMethod); JoinWrite(k, 0);
    if i.configMethod == STATIC {
      body := body + PutString(i.address); JoinWrite(k, 1);
      body := body + PutString(i.gateway); JoinWrite(k, 2);
      body := body + PutString(i.url); JoinWrite(k, 3);
      JoinWrite(k, 4);
    } else {
      JoinWrite(k, 1);
    }
    body := body + PutFlag(i.override, big);
    assert k[..|k|] == k;
  }

  /** `pb_protocol_interface_config_len` */
  method InterfaceLength(i: Interface, ghost big: bool) returns (n: nat)
    requires SendableInterface(i)
    ensures n == |PutInterface(i, big)|
  {
    hide Join, PutFlag, PutU32, PutString;
    n := HWADDR_SIZE + 4;
    if i.ignore {
      return;
    }
    ghost var k := BodyChunks(i, big);
    JoinNone(k);
    n := n + 4;
    JoinWrite(k, 0);
    if i.configMethod == STATIC {
      n := n + 4 + OptionalLength(i.address); JoinWrite(k, 1);
      n := n + 4 + OptionalLength(i.gateway); JoinWrite(k, 2);
      n := n + 4 + OptionalLength(i.url); JoinWrite(k, 3);
      JoinWrite(k, 4);
    } else {
      JoinWrite(k, 1);
    }
    n := n + 4;
    assert k[..|k|] == k;
  }

  method SerialiseInterfaces(s: seq<Interface>, big: bool) returns (out: Bytes)
    requires SendableInterfaces(s)
    ensures out == PutInterfaces(s, big)
  {
    hide PutInterface;
    out := [];
    var i := 0;
    assert s[0..] == s;
    while i < |s|
      invariant 0 <= i <= |s| && out + PutInterfaces(s[i..], big) == PutInterfaces(s, big)
    {
      assert s[i..][1..] == s[i + 1..];
      var x := SerialiseInterface(s[i], big);
      Regroup(out, x, PutInterfaces(s[i + 1..], big));
      out := out + x;
      i := i + 1;
    }
  }

  method InterfacesLength(s: seq<Interface>, ghost big: bool) returns (n: nat)
    requires SendableInterfaces(s)
    ensures n == |PutInterfaces(s, big)|
  {
    hide PutInterface;
    n := 0;
    var i := 0;
    assert s[0..] == s;
    while i < |s|
      invariant 0 <= i <= |s| && n + |PutInterfaces(s[i..], big)| == |PutInterfaces(s, big)|
    {
      assert s[i..][1..] == s[i + 1..];
      var x := InterfaceLength(s[i], big);
      n := n + x;
      i := i + 1;
    }
  }

  method SerialiseOptions(s: seq<AutobootOption>) returns (out: Bytes)
    requires SendableOptions(s)
    ensures out == PutOptions(s)
  {
    hide PutU32, PutString, Sendable, SendableOption, PutOption;
    out := [];
    var i := 0;
    assert s[0..] == s;
    while i < |s|
      invariant 0 <= i <= |s| && out + PutOptions(s[i..]) == PutOptions(s)
    {
      assert s[i..][1..] == s[i + 1..] && SendableOption(s[i]);
      var x := SerialiseOption(s[i]);
      Regroup(out, x, PutOptions(s[i + 1..]));
      out := out + x;
      i := i + 1;
    }
  }

  method SerialiseOption(o: AutobootOption) returns (out: Bytes)
    requires SendableOption(o)
    ensures out == PutOption(o)
  {
    if o.OfType? {
      out := PutU32(DEVICE_TYPE);
      out := out + PutU32(o.deviceType);
    } else {
      out := PutU32(o.bootType);
      out := out + PutString(o.uuid);
    }
  }

  method OptionsLength(s: seq<AutobootOption>) returns (n: nat)
    requires SendableOptions(s)
    ensures n == |PutOptions(s)|
  {
    hide PutU32, PutString, Sendable;
    n := 0;
    var i := 0;
    assert s[0..] == s;
    while i < |s|
      invariant 0 <= i <= |s| && n + |PutOptions(s[i..])| == |PutOptions(s)|
    {
      assert s[i..][1..] == s[i + 1..] && SendableOption(s[i]);
      n := n + if s[i].OfType? then 4 + 4 else 4 + 4 + OptionalLength(s[i].uuid);
      i := i + 1;
    }
  }

  method SerialiseHead(c: Config, big: bool) returns (out: Bytes)
    requires SendableConfig(c)
    ensures out == Join(HeadChunks(c, big))
  {
    hide Join, PutFlag, PutU32, PutString, PutStrings, PutInterfaces, PutOptions;
    ghost var k := HeadChunks(c, big);
    JoinNone(k);
    out := [];
    out := out + PutFlag(c.autobootEnabled, big); JoinWrite(k, 0);
    out := out + PutU32(c.timeoutSec); JoinWrite(k, 1);
    out := out + PutFlag(c.safeMode, big); JoinWrite(k, 2);
    out := out + PutU32(|c.interfaces|); JoinWrite(k, 3);
    var interfaces := SerialiseInterfaces(c.interfaces, big);
    out := out + interfaces; JoinWrite(k, 4);
    out := out + PutU32(|c.dnsServers|); JoinWrite(k, 5);
    var dns := SerialiseStrings(c.dnsServers);
    out := out + dns; JoinWrite(k, 6);
    assert k[..7] == k;
  }

  method HeadLength(c: Config, ghost big: bool) returns (n: nat)
    requires SendableConfig(c)
    ensures n == |Join(HeadChunks(c, big))|
  {
    hide Join, PutFlag, PutU32, PutString, PutStrings, PutInterfaces, PutOptions;
    ghost var k := HeadChunks(c, big);
    JoinNone(k);
    n := 0;
    n := n + 4; JoinWrite(k, 0);
    n := n + 4; JoinWrite(k, 1);
    n := n + 4; JoinWrite(k, 2);
    n := n + 4; JoinWrite(k, 3);
    var interfaces := InterfacesLength(c.interfaces, big);
    n := n + interfaces; JoinWrite(k, 4);
    n := n + 4; JoinWrite(k, 5);
    var dns := StringsLength(c.dnsServers);
    n := n + dns; JoinWrite(k, 6);
    assert k[..7] == k;
  }

  method SerialiseMiddle(c: Config, big: bool) returns (out: Bytes)
    requires SendableConfig(c)
    ensures out == Join(MiddleChunks(c, big))
  {
    hide Join, PutFlag, PutU32, PutString, PutStrings, PutInterfaces, PutOptions;
    ghost var k := MiddleChunks(c, big);
    JoinNone(k);
    out := [];
    out := out + PutString(c.httpProxy); JoinWrite(k, 0);
    out := out + PutString(c.httpsProxy); JoinWrite(k, 1);
    out := out + PutU32(|c.autobootOptions|); JoinWrite(k, 2);
    var options := SerialiseOptions(c.autobootOptions);
    out := out + options; JoinWrite(k, 3);
    out := out + PutU32(c.ipmiBootdev); JoinWrite(k, 4);
    out := out + PutFlag(c.ipmiPersistent, big); JoinWrite(k, 5);
    out := out + PutFlag(c.ipmiMailbox, big); JoinWrite(k, 6);
    out := out + PutFlag(c.allowWrites, big); JoinWrite(k, 7);
    assert k[..8] == k;
  }

  method MiddleLength(c: Config, ghost big: bool) returns (n: nat)
    requires SendableConfig(c)
    ensures n == |Join(MiddleChunks(c, big))|
  {
    hide Join, PutFlag, PutU32, PutString, PutStrings, PutInterfaces, PutOptions;
    ghost var k := MiddleChunks(c, big);
    JoinNone(k);
    n := 0;
    n := n + 4 + OptionalLength(c.httpProxy); JoinWrite(k, 0);
    n := n + 4 + OptionalLength(c.httpsProxy); JoinWrite(k, 1);
    n := n + 4; JoinWrite(k, 2);
    var options := OptionsLength(c.autobootOptions);
    n := n + options; JoinWrite(k, 3);
    n := n + 4; JoinWrite(k, 4);
    n := n + 4; JoinWrite(k, 5);
    n := n + 4; JoinWrite(k, 6);
    n := n + 4; JoinWrite(k, 7);
    assert k[..8] == k;
  }

  method SerialiseTail(c: Config, big: bool) returns (out: Bytes)
    requires SendableConfig(c)
    ensures out == Join(TailChunks(c, big))
  {
    hide Join, PutFlag, PutU32, PutString, PutStrings, PutInterfaces, PutOptions;
    ghost var k := TailChunks(c, big);
    JoinNone(k);
    out := [];
    out := out + PutU32(|c.consoles|); JoinWrite(k, 0);
    var consoles := SerialiseStrings(c.consoles);
    out := out + consoles; JoinWrite(k, 1);
    out := out + PutString(c.bootConsole); JoinWrite(k, 2);
    out := out + PutFlag(c.manualConsole, big); JoinWrite(k, 3);
    out := out + PutString(c.lang); JoinWrite(k, 4);
    out := out + PutFlag(c.prebootCheck, big); JoinWrite(k, 5);
    assert k[..6] == k;
  }

  method TailLength(c: Config, ghost big: bool) returns (n: nat)
    requires SendableConfig(c)
    ensures n == |Join(TailChunks(c, big))|
  {
    hide Join, PutFlag, PutU32, PutString, PutStrings, PutInterfaces, PutOptions;
    ghost var k := TailChunks(c, big);
    JoinNone(k);
    n := 0;
    n := n + 4; JoinWrite(k, 0);
    var consoles := StringsLength(c.consoles);
    n := n + consoles; JoinWrite(k, 1);
    n := n + 4 + OptionalLength(c.bootConsole); JoinWrite(k, 2);
    n := n + 4; JoinWrite(k, 3);
    n := n + 4 + OptionalLength(c.lang); JoinWrite(k, 4);
    n := n + 4; JoinWrite(k, 5);
    assert k[..6] == k;
  }

  /** `pb_protocol_serialise_config` */
  method SerialiseConfig(c: Config, big: bool) returns (out: Bytes)
    requires SendableConfig(c)
    ensures out == PutConfig(c, big)
  {
    hide HeadChunks, MiddleChunks, TailChunks, SendableConfig;
    var head := SerialiseHead(c, big);
    var middle := SerialiseMiddle(c, big);
    var tail := SerialiseTail(c, big);
    out := head + (middle + tail);
  }

  /** `pb_protocol_config_len`: exactly what the serialiser writes. */
  method ConfigLength(c: Config, ghost big: bool) returns (n: nat)
    requires SendableConfig(c)
    ensures n == |PutConfig(c, big)|
  {
    hide HeadChunks, MiddleChunks, TailChunks, SendableConfig;
    var head := HeadLength(c, big);
    var middle := MiddleLength(c, big);
    var tail := TailLength(c, big);
    n := head + middle + tail;
  }

  // --- reading it ---

  /** `pb_protocol_deserialise_config_interface` */
  method DeserialiseInterface(reader: Reader) returns (r: Result<Interface>)
    requires reader.Valid()
    modifies reader
    ensures reader.Valid() && Agrees(ReadInterface(old(reader.Rest())), r, reader.Rest())
  {
    hide ReadFlag, ReadU32, ReadString, ReadRaw;
    var hwaddr :- reader.Raw(HWADDR_SIZE);
    var ignore :- reader.Flag();
    if ignore {
      return Success(Interface(hwaddr, true, 0, None, None, None, false));
    }
    r := DeserialiseBody(reader, hwaddr);
  }

  method DeserialiseBody(reader: Reader, hwaddr: Bytes) returns (r: Result<Interface>)
    requires reader.Valid()
    modifies reader
    ensures reader.Valid() && Agrees(ReadBody(hwaddr, old(reader.Rest())), r, reader.Rest())
  {
    hide ReadFlag, ReadU32, ReadString;
    var configMethod :- reader.U32();
    var address: CString, gateway: CString, url: CString := None, None, None;
    if configMethod == STATIC {
      address :- reader.String();
      gateway :- reader.String();
      url :- reader.String();
    }
    var override :- reader.Flag();
    return Success(Interface(hwaddr, false, configMethod, address, gateway, url, override));
  }

  method DeserialiseOption(reader: Reader) returns (r: Result<AutobootOption>)
    requires reader.Valid()
    modifies reader
    ensures reader.Valid() && Agrees(ReadOption(old(reader.Rest())), r, reader.Rest())
  {
    hide ReadU32, ReadString;
    var bootType :- reader.U32();
    if bootType == DEVICE_TYPE {
      var t :- reader.U32();
      return Success(OfType(t));
    }
    var uuid :- reader.String();
    return Success(OfUuid(bootType, uuid));
  }

  method DeserialiseInterfaces(reader: Reader, n: nat) returns (r: Result<seq<Interface>>)
    requires reader.Valid()
    modifies reader
    ensures reader.Valid() && Agrees(ReadInterfaces(old(reader.Rest()), n), r, reader.Rest())
  {
    hide ReadInterface, ReadInterfaces;
    var s := [];
    PrependNone(ReadInterfaces(reader.Rest(), n));
    var i := 0;
    while i < n
      invariant 0 <= i <= n && |s| == i && reader.Valid()
      invariant ReadInterfaces(old(reader.Rest()), n) == Prepend(s, ReadInterfaces(reader.Rest(), n - i))
    {
      ReadInterfacesTurn(reader.Rest(), n - i, s);
      var x :- DeserialiseInterface(reader);
      s := s + [x];
      i := i + 1;
    }
    ReadInterfacesEnd(reader.Rest(), s);
    return Success(s);
  }

  lemma ReadInterfacesEnd(b: Bytes, s: seq<Interface>)
    ensures Prepend(s, ReadInterfaces(b, 0)) == Success((s, b))
  {
    assert s + [] == s;
  }

  lemma ReadInterfacesTurn(b: Bytes, n: nat, s: seq<Interface>)
    requires n > 0
    ensures var x := ReadInterface(b);
      Prepend(s, ReadInterfaces(b, n)) ==
        match x
        case Malformed => Malformed
        case Overread => Overread
        case Success(v) => Prepend(s + [v.0], ReadInterfaces(v.1, n - 1))
  {
    hide ReadInterface;
    var x := ReadInterface(b);
    if x.Success? {
      var more := ReadInterfaces(x.value.1, n - 1);
      if more.Success? { assert s + ([x.value.0] + more.value.0) == s + [x.value.0] + more.value.0; }
    }
  }

  method DeserialiseOptions(reader: Reader, n: nat) returns (r: Result<seq<AutobootOption>>)
    requires reader.Valid()
    modifies reader
    ensures reader.Valid() && Agrees(ReadOptions(old(reader.Rest()), n), r, reader.Rest())
  {
    hide ReadOption, ReadOptions;
    var s := [];
    PrependNone(ReadOptions(reader.Rest(), n));
    var i := 0;
    while i < n
      invariant 0 <= i <= n && |s| == i && reader.Valid()
      invariant ReadOptions(old(reader.Rest()), n) == Prepend(s, ReadOptions(reader.Rest(), n - i))
    {
      ReadOptionsTurn(reader.Rest(), n - i, s);
      var x :- DeserialiseOption(reader);
      s := s + [x];
      i := i + 1;
    }
    ReadOptionsEnd(reader.Rest(), s);
    return Success(s);
  }

  lemma ReadOptionsEnd(b: Bytes, s: seq<AutobootOption>)
    ensures Prepend(s, ReadOptions(b, 0)) == Success((s, b))
  {
    assert s + [] == s;
  }

  lemma ReadOptionsTurn(b: Bytes, n: nat, s: seq<AutobootOption>)
    requires n > 0
    ensures var x := ReadOption(b);
      Prepend(s, ReadOptions(b, n)) ==
        match x
        case Malformed => Malformed
        case Overread => Overread
        case Success(v) => Prepend(s + [v.0], ReadOptions(v.1, n - 1))
  {
    hide ReadOption;
    var x := ReadOption(b);
    if x.Success? {
      var more := ReadOptions(x.value.1, n - 1);
      if more.Success? { assert s + ([x.value.0] + more.value.0) == s + [x.value.0] + more.value.0; }
    }
  }

  method DeserialiseHead(c: Config, reader: Reader) returns (r: Result<Config>)
    requires reader.Valid()
    modifies reader
    ensures reader.Valid() && Agrees(ReadHead(c, old(reader.Rest())), r, reader.Rest())
  {
    hide ReadFlag, ReadU32, ReadInterfaces, ReadStrings;
    var autobootEnabled :- reader.Flag();
    var timeoutSec :- reader.U32();
    var safeMode :- reader.Flag();
    var n :- reader.U32();
    var interfaces :- DeserialiseInterfaces(reader, n);
    var m :- reader.U32();
    var dnsServers :- reader.Strings(m);
    return Success(c.(autobootEnabled := autobootEnabled, timeoutSec := timeoutSec, safeMode := safeMode,
                      interfaces := interfaces, dnsServers := dnsServers));
  }

  method DeserialiseMiddle(c: Config, reader: Reader) returns (r: Result<Config>)
    requires reader.Valid()
    modifies reader
    ensures reader.Valid() && Agrees(ReadMiddle(c, old(reader.Rest())), r, reader.Rest())
  {
    hide ReadFlag, ReadU32, ReadOptions, ReadString;
    var httpProxy :- reader.String();
    var httpsProxy :- reader.String();
    var n :- reader.U32();
    var autobootOptions :- DeserialiseOptions(reader, n);
    var ipmiBootdev :- reader.U32();
    var ipmiPersistent :- reader.Flag();
    var ipmiMailbox :- reader.Flag();
    var allowWrites :- reader.Flag();
    return Success(c.(httpProxy := httpProxy, httpsProxy := httpsProxy, autobootOptions := autobootOptions,
                      ipmiBootdev := ipmiBootdev,
                      ipmiPersistent := ipmiPersistent, ipmiMailbox := ipmiMailbox, allowWrites := allowWrites));
  }

  method DeserialiseTail(c: Config, reader: Reader) returns (r: Result<Config>)
    requires reader.Valid()
    modifies reader
    ensures reader.Valid() && Agrees(ReadTail(c, old(reader.Rest())), r, reader.Rest())
  {
    hide ReadFlag, ReadU32, ReadStrings, ReadString;
    var n :- reader.U32();
    var consoles :- reader.Strings(n);
    var bootConsole :- reader.String();
    var manualConsole :- reader.Flag();
    var lang :- reader.String();
    var prebootCheck :- reader.Flag();
    return Success(c.(consoles := consoles, bootConsole := bootConsole, manualConsole := manualConsole,
                      lang := lang, prebootCheck := prebootCheck));
  }

  /** `pb_protocol_deserialise_config` */
  method DeserialiseConfig(payload: Bytes) returns (r: Result<Config>)
    ensures match ReadConfig(payload)
      case Malformed => r.Malformed?
      case Overread => r.Overread?
      case Success(v) => r == Success(v.0)
  {
    hide ReadHead, ReadMiddle, ReadTail;
    var reader := new Reader(payload);
    var c := Blank();
    c :- DeserialiseHead(c, reader);
    c :- DeserialiseMiddle(c, reader);
    r := DeserialiseTail(c, reader);
  }

  /** Sending and receiving, end to end. */
  method Transmit(c: Config, big: bool) returns (r: Result<Config>)
    requires SendableConfig(c)
    ensures r == Success(ArrivesConfig(c))
  {
    hide PutConfig, ReadConfig, ArrivesConfig;
    var n := ConfigLength(c, big);
    var payload := SerialiseConfig(c, big);
    assert |payload| == n;
    ConfigBack(c, big);
    r := DeserialiseConfig(payload);
  }

  /** `pb_protocol_temp_autoboot_len` */
  function TempLength(o: AutobootOption): (n: nat) {
    4 + if o.OfType? then 4 else OptionalLength(o.uuid)
  }

  /**
   The announced length of a temporary override is what is written exactly if it names a device
   type; a UUID's own length is forgotten.
   */
  lemma TempLengthIff(o: AutobootOption)
    requires SendableOption(o)
    ensures TempLength(o) == |PutOption(o)| <==> o.OfType?
    ensures o.OfUuid? ==> |PutOption(o)| == TempLength(o) + 4
  {
    hide PutU32;
  }
}
