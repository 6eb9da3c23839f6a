/**
 The system information message (lib/pb-protocol/pb-protocol.c). The receiver does not
 count the link flag of an interface when it keeps track of how much is left, so its
 checks are loose by the number of interfaces read (`slack`).
 */
module ProtocolSystemInfo {
  import opened Common
  import opened Wire

  datatype InterfaceInfo = InterfaceInfo(hwaddr: Bytes, name: CString, link: bool, address: CString, addressV6: CString)
  datatype BlockdevInfo = BlockdevInfo(name: CString, uuid: CString, mountpoint: CString)

  datatype SystemInfo = SystemInfo(
    kind: CString, identifier: CString,
    primary: seq<CString>, other: seq<CString>, bmcCurrent: seq<CString>, bmcGolden: seq<CString>,
    interfaces: seq<InterfaceInfo>, blockdevs: seq<BlockdevInfo>, bmcMac: Option<Bytes>,
    measuring: bool, enforcing: bool, osEnforcing: bool)

  // --- what can be sent, and what arrives ---

  ghost predicate SendableInterface(i: InterfaceInfo) {
    |i.hwaddr| < TWO32 && Sendable(i.name) && Sendable(i.address) && Sendable(i.addressV6)
  }

  ghost predicate SendableBlockdev(d: BlockdevInfo) {
    Sendable(d.name) && Sendable(d.uuid) && Sendable(d.mountpoint)
  }

  ghost predicate SendableInterfaces(s: seq<InterfaceInfo>) {
    |s| < TWO32 && forall k :: 0 <= k < |s| ==> SendableInterface(s[k])
  }

  ghost predicate SendableBlockdevs(s: seq<BlockdevInfo>) {
    |s| < TWO32 && forall k :: 0 <= k < |s| ==> SendableBlockdev(s[k])
  }

  ghost predicate SendableInfo(i: SystemInfo) {
    && Sendable(i.kind) && Sendable(i.identifier)
    && AllSendable(i.primary) && AllSendable(i.other) && AllSendable(i.bmcCurrent) && AllSendable(i.bmcGolden)
    && SendableInterfaces(i.interfaces) && SendableBlockdevs(i.blockdevs)
    && (i.bmcMac.Some? ==> |i.bmcMac.value| == HWADDR_SIZE)
  }

  function ArrivesInterface(i: InterfaceInfo): (r: InterfaceInfo) {
    i.(name := Arrives(i.name), address := Arrives(i.address), addressV6 := Arrives(i.addressV6))
  }

  function ArrivesBlockdev(d: BlockdevInfo): (r: BlockdevInfo) {
    BlockdevInfo(Arrives(d.name), Arrives(d.uuid), Arrives(d.mountpoint))
  }

  function ArriveInterfaces(s: seq<InterfaceInfo>): (r: seq<InterfaceInfo>) {
    seq(|s|, k requires 0 <= k < |s| => ArrivesInterface(s[k]))
  }

  function ArriveBlockdevs(s: seq<BlockdevInfo>): (r: seq<BlockdevInfo>) {
    seq(|s|, k requires 0 <= k < |s| => ArrivesBlockdev(s[k]))
  }

  const ZERO_MAC: Bytes := [0, 0, 0, 0, 0, 0]

  /** Empty strings and a hardware address of zeros arrive as none at all. */
  function ArrivesInfo(i: SystemInfo): (r: SystemInfo) {
    i.(kind := Arrives(i.kind), identifier := Arrives(i.identifier),
       primary := ArriveAll(i.primary), other := ArriveAll(i.other),
       bmcCurrent := ArriveAll(i.bmcCurrent), bmcGolden := ArriveAll(i.bmcGolden),
       interfaces := ArriveInterfaces(i.interfaces), blockdevs := ArriveBlockdevs(i.blockdevs),
       bmcMac := if i.bmcMac == Some(ZERO_MAC) then None else i.bmcMac)
  }

  // --- interfaces and block devices ---

  ghost function InterfaceChunks(i: InterfaceInfo): (r: seq<Bytes>)
    requires SendableInterface(i)
  {
    [PutU32(|i.hwaddr|), i.hwaddr, PutString(i.name), PutBool(i.link), PutString(i.address), PutString(i.addressV6)]
  }

  function ReadInterface(b: Bytes, slack: nat): (r: Result<(InterfaceInfo, Bytes)>) {
    var (n, b) :- LooseU32(b, slack);
    var (hwaddr, b) :- LooseRaw(b, n, slack);
    var (name, b) :- LooseString(b, slack);
    var (link, b) :- ReadBool(b);
    var (address, b) :- LooseString(b, slack + 1);
    var (addressV6, b) :- LooseString(b, slack + 1);
    Success((InterfaceInfo(hwaddr, name, link, address, addressV6), b))
  }

  lemma InterfaceBack(i: InterfaceInfo, slack: nat, rest: Bytes)
    requires SendableInterface(i)
    ensures ReadInterface(Join(InterfaceChunks(i)) + rest, slack) == Success((ArrivesInterface(i), rest))
  {
    hide Join, PutU32, ReadU32, PutString, ReadString, PutBool, ReadBool, LooseU32, LooseString, LooseRaw, Sendable,
      Arrives;
    var c := InterfaceChunks(i);
    JoinDone(c, rest);
    JoinStep(c, 0, rest); U32Back(|i.hwaddr|, Join(c[1..]) + rest);
    JoinStep(c, 1, rest); RawBack(i.hwaddr, Join(c[2..]) + rest);
    JoinStep(c, 2, rest); StringBack(i.name, Join(c[3..]) + rest);
    JoinStep(c, 3, rest); BoolBack(i.link, Join(c[4..]) + rest);
    JoinStep(c, 4, rest); StringBack(i.address, Join(c[5..]) + rest);
    JoinStep(c, 5, rest); StringBack(i.addressV6, Join(c[6..]) + rest);
  }

  lemma RawBack(x: Bytes, rest: Bytes)
    ensures ReadRaw(x + rest, |x|) == Success((x, rest))
  {
  }

  ghost function BlockdevChunks(d: BlockdevInfo): (r: seq<Bytes>)
    requires SendableBlockdev(d)
  {
    [PutString(d.name), PutString(d.uuid), PutString(d.mountpoint)]
  }

  function ReadBlockdev(b: Bytes, slack: nat): (r: Result<(BlockdevInfo, Bytes)>) {
    var (name, b) :- LooseString(b, slack);
    var (uuid, b) :- LooseString(b, slack);
    var (mountpoint, b) :- LooseString(b, slack);
    Success((BlockdevInfo(name, uuid, mountpoint), b))
  }

  lemma BlockdevBack(d: BlockdevInfo, slack: nat, rest: Bytes)
    requires SendableBlockdev(d)
    ensures ReadBlockdev(Join(BlockdevChunks(d)) + rest, slack) == Success((ArrivesBlockdev(d), rest))
  {
    hide Join, PutString, ReadString, LooseString, Sendable, Arrives;
    var c := BlockdevChunks(d);
    JoinDone(c, rest);
    JoinStep(c, 0, rest); StringBack(d.name, Join(c[1..]) + rest);
    JoinStep(c, 1, rest); StringBack(d.uuid, Join(c[2..]) + rest);
    JoinStep(c, 2, rest); StringBack(d.mountpoint, Join(c[3..]) + rest);
  }

  // --- lists of them ---

  ghost function PutInterfaces(s: seq<InterfaceInfo>): (r: Bytes)
    requires SendableInterfaces(s)
  {
    if s == [] then [] else Join(InterfaceChunks(s[0])) + PutInterfaces(s[1..])
  }

  function ReadInterfaces(b: Bytes, n: nat, slack: nat): (r: Result<(seq<InterfaceInfo>, Bytes)>)
    decreases n
  {
    if n == 0 then Success(([], b))
    else
      var (x, b) :- ReadInterface(b, slack);
      var (more, b) :- ReadInterfaces(b, n - 1, slack + 1);
      Success(([x] + more, b))
  }

  lemma {:induction false} InterfacesBack(s: seq<InterfaceInfo>, slack: nat, rest: Bytes)
    requires SendableInterfaces(s)
    ensures ReadInterfaces(PutInterfaces(s) + rest, |s|, slack) == Success((ArriveInterfaces(s), rest))
  {
    hide Join, InterfaceChunks, ReadInterface, ArrivesInterface, SendableInterface, PutInterfaces, ReadInterfaces,
      ArriveInterfaces;
    if s == [] {
      NoInterfaces(rest, slack);
    } else {
      var after := PutInterfaces(s[1..]) + rest;
      InterfacesBack(s[1..], slack + 1, rest);
      InterfaceBack(s[0], slack, after);
      InterfacesFirst(s, rest);
      InterfacesStep(PutInterfaces(s) + rest, |s|, slack);
    }
  }

  lemma NoInterfaces(rest: Bytes, slack: nat)
    ensures PutInterfaces([]) + rest == rest && ArriveInterfaces([]) == []
      && ReadInterfaces(rest, 0, slack) == Success(([], rest))
  {
    assert [] + rest == rest;
  }

  lemma {:induction false} InterfacesFirst(s: seq<InterfaceInfo>, rest: Bytes)
    requires SendableInterfaces(s) && s != []
    ensures PutInterfaces(s) + rest == Join(InterfaceChunks(s[0])) + (PutInterfaces(s[1..]) + rest)
    ensures ArriveInterfaces(s) == [ArrivesInterface(s[0])] + ArriveInterfaces(s[1..])
  {
    ArriveInterfacesFirst(s);
    hide Join, InterfaceChunks, SendableInterface, ArrivesInterface, ArriveInterfaces;
    Regroup(Join(InterfaceChunks(s[0])), PutInterfaces(s[1..]), rest);
  }

  lemma ArriveInterfacesFirst(s: seq<InterfaceInfo>)
    requires s != []
    ensures ArriveInterfaces(s) == [ArrivesInterface(s[0])] + ArriveInterfaces(s[1..])
  {
  }

  lemma {:induction false} InterfacesStep(b: Bytes, n: nat, slack: nat)
    requires n > 0
    ensures var x := ReadInterface(b, slack);
      x.Success? ==>
        var more := ReadInterfaces(x.value.1, n - 1, slack + 1);
        more.Success? ==> ReadInterfaces(b, n, slack) == Success(([x.value.0] + more.value.0, more.value.1))
  {
    hide ReadInterface;
  }

  ghost function PutBlockdevs(s: seq<BlockdevInfo>): (r: Bytes)
    requires SendableBlockdevs(s)
  {
    if s == [] then [] else Join(BlockdevChunks(s[0])) + PutBlockdevs(s[1..])
  }

  function ReadBlockdevs(b: Bytes, n: nat, slack: nat): (r: Result<(seq<BlockdevInfo>, Bytes)>)
    decreases n
  {
    if n == 0 then Success(([], b))
    else
      var (x, b) :- ReadBlockdev(b, slack);
      var (more, b) :- ReadBlockdevs(b, n - 1, slack);
      Success(([x] + more, b))
  }

  lemma {:induction false} BlockdevsBack(s: seq<BlockdevInfo>, slack: nat, rest: Bytes)
    requires SendableBlockdevs(s)
    ensures ReadBlockdevs(PutBlockdevs(s) + rest, |s|, slack) == Success((ArriveBlockdevs(s), rest))
  {
    hide Join, BlockdevChunks, ReadBlockdev, ArrivesBlockdev, SendableBlockdev, PutBlockdevs, ReadBlockdevs,
      ArriveBlockdevs;
    if s == [] {
      NoBlockdevs(rest, slack);
    } else {
      var after := PutBlockdevs(s[1..]) + rest;
      BlockdevsBack(s[1..], slack, rest);
      BlockdevBack(s[0], slack, after);
      BlockdevsFirst(s, rest);
      BlockdevsStep(PutBlockdevs(s) + rest, |s|, slack);
    }
  }

  lemma NoBlockdevs(rest: Bytes, slack: nat)
    ensures PutBlockdevs([]) + rest == rest && ArriveBlockdevs([]) == []
      && ReadBlockdevs(rest, 0, slack) == Success(([], rest))
  {
    assert [] + rest == rest;
  }

  lemma {:induction false} BlockdevsFirst(s: seq<BlockdevInfo>, rest: Bytes)
    requires SendableBlockdevs(s) && s != []
    ensures PutBlockdevs(s) + rest == Join(BlockdevChunks(s[0])) + (PutBlockdevs(s[1..]) + rest)
    ensures ArriveBlockdevs(s) == [ArrivesBlockdev(s[0])] + ArriveBlockdevs(s[1..])
  {
    ArriveBlockdevsFirst(s);
    hide Join, BlockdevChunks, SendableBlockdev, ArrivesBlockdev, ArriveBlockdevs;
    Regroup(Join(BlockdevChunks(s[0])), PutBlockdevs(s[1..]), rest);
  }

  lemma ArriveBlockdevsFirst(s: seq<BlockdevInfo>)
    requires s != []
    ensures ArriveBlockdevs(s) == [ArrivesBlockdev(s[0])] + ArriveBlockdevs(s[1..])
  {
  }

  lemma {:induction false} BlockdevsStep(b: Bytes, n: nat, slack: nat)
    requires n > 0
    ensures var x := ReadBlockdev(b, slack);
      x.Success? ==>
        var more := ReadBlockdevs(x.value.1, n - 1, slack);
        more.Success? ==> ReadBlockdevs(b, n, slack) == Success(([x.value.0] + more.value.0, more.value.1))
  {
    hide ReadBlockdev;
  }

  // --- the whole message ---

  ghost function VersionChunks(i: SystemInfo): (r: seq<Bytes>)
    requires SendableInfo(i)
  {
    [PutString(i.kind), PutString(i.identifier),
     PutU32(|i.primary|), PutStrings(i.primary), PutU32(|i.other|), PutStrings(i.other),
     PutU32(|i.bmcCurrent|), PutStrings(i.bmcCurrent), PutU32(|i.bmcGolden|), PutStrings(i.bmcGolden)]
  }

  ghost function DeviceChunks(i: SystemInfo): (r: seq<Bytes>)
    requires SendableInfo(i)
  {
    [PutU32(|i.interfaces|), PutInterfaces(i.interfaces), PutU32(|i.blockdevs|), PutBlockdevs(i.blockdevs),
     if i.bmcMac.Some? then i.bmcMac.value else ZERO_MAC,
     PutBool(i.measuring), PutBool(i.enforcing), PutBool(i.osEnforcing)]
  }

  ghost function PutInfo(i: SystemInfo): (r: Bytes)
    requires SendableInfo(i)
  {
    Join(VersionChunks(i)) + Join(DeviceChunks(i))
  }

  function Blank(): (i: SystemInfo) {
    SystemInfo(None, None, [], [], [], [], [], [], None, false, false, false)
  }

  function ReadVersions(i: SystemInfo, b: Bytes): (r: Result<(SystemInfo, Bytes)>) {
    var (kind, b) :- ReadString(b);
    var (identifier, b) :- ReadString(b);
    var (n, b) :- ReadU32(b);
    var (primary, b) :- ReadStrings(b, n);
    var (n, b) :- ReadU32(b);
    var (other, b) :- ReadStrings(b, n);
    var (n, b) :- ReadU32(b);
    var (bmcCurrent, b) :- ReadStrings(b, n);
    var (n, b) :- ReadU32(b);
    var (bmcGolden, b) :- ReadStrings(b, n);
    Success((i.(kind := kind, identifier := identifier, primary := primary, other := other,
                bmcCurrent := bmcCurrent, bmcGolden := bmcGolden), b))
  }

  /** The hardware address and the last three flags are read without any check. */
  function ReadDevices(i: SystemInfo, b: Bytes): (r: Result<(SystemInfo, Bytes)>) {
    var (n, b) :- ReadU32(b);
    var (interfaces, b) :- ReadInterfaces(b, n, 0);
    var (m, b) :- LooseU32(b, n);
    var (blockdevs, b) :- ReadBlockdevs(b, m, n);
    var (mac, b) :- ReadUnchecked(b, HWADDR_SIZE);
    var (measuring, b) :- ReadBool(b);
    var (enforcing, b) :- ReadBool(b);
    var (osEnforcing, b) :- ReadBool(b);
    Success((i.(interfaces := interfaces, blockdevs := blockdevs,
                bmcMac := if mac == ZERO_MAC then i.bmcMac else Some(mac),
                measuring := measuring, enforcing := enforcing, osEnforcing := osEnforcing), b))
  }

  function ReadInfo(b: Bytes): (r: Result<(SystemInfo, Bytes)>) {
    var (i, b) :- ReadVersions(Blank(), b);
    ReadDevices(i, b)
  }

  lemma VersionsBack(i: SystemInfo, d: SystemInfo, rest: Bytes)
    requires SendableInfo(i)
    ensures ReadVersions(d, Join(VersionChunks(i)) + rest) ==
      Success((d.(kind := Arrives(i.kind), identifier := Arrives(i.identifier), primary := ArriveAll(i.primary),
                  other := ArriveAll(i.other),
                  bmcCurrent := ArriveAll(i.bmcCurrent), bmcGolden := ArriveAll(i.bmcGolden)), rest))
  {
    hide Join, PutU32, ReadU32, PutString, ReadString, PutStrings, ReadStrings, ArriveAll, Arrives, Sendable,
      SendableInterfaces, SendableBlockdevs;
    var k := VersionChunks(i);
    JoinDone(k, rest);
    JoinStep(k, 0, rest); StringBack(i.kind, Join(k[1..]) + rest);
    JoinStep(k, 1, rest); StringBack(i.identifier, Join(k[2..]) + rest);
    JoinStep(k, 2, rest); U32Back(|i.primary|, Join(k[3..]) + rest);
    JoinStep(k, 3, rest); StringsBack(i.primary, Join(k[4..]) + rest);
    JoinStep(k, 4, rest); U32Back(|i.other|, Join(k[5..]) + rest);
    JoinStep(k, 5, rest); StringsBack(i.other, Join(k[6..]) + rest);
    JoinStep(k, 6, rest); U32Back(|i.bmcCurrent|, Join(k[7..]) + rest);
    JoinStep(k, 7, rest); StringsBack(i.bmcCurrent, Join(k[8..]) + rest);
    JoinStep(k, 8, rest); U32Back(|i.bmcGolden|, Join(k[9..]) + rest);
    JoinStep(k, 9, rest); StringsBack(i.bmcGolden, Join(k[10..]) + rest);
  }

  lemma DevicesBack(i: SystemInfo, d: SystemInfo, rest: Bytes)
    requires SendableInfo(i) && d.bmcMac == None
    ensures ReadDevices(d, Join(DeviceChunks(i)) + rest) ==
      Success((d.(interfaces := ArriveInterfaces(i.interfaces), blockdevs := ArriveBlockdevs(i.blockdevs),
                  bmcMac := if i.bmcMac == Some(ZERO_MAC) then None else i.bmcMac,
                  measuring := i.measuring, enforcing := i.enforcing, osEnforcing := i.osEnforcing), rest))
  {
    hide Join, PutU32, ReadU32, LooseU32, PutBool, ReadBool, PutInterfaces, ReadInterfaces, PutBlockdevs, ReadBlockdevs;
    hide ArriveInterfaces, ArriveBlockdevs, SendableInterface, SendableBlockdev, AllSendable, Sendable;
    var k := DeviceChunks(i);
    JoinDone(k, rest);
    JoinStep(k, 0, rest); U32Back(|i.interfaces|, Join(k[1..]) + rest);
    JoinStep(k, 1, rest); InterfacesBack(i.interfaces, 0, Join(k[2..]) + rest);
    JoinStep(k, 2, rest); U32Back(|i.blockdevs|, Join(k[3..]) + rest);
    JoinStep(k, 3, rest); BlockdevsBack(i.blockdevs, |i.interfaces|, Join(k[4..]) + rest);
    JoinStep(k, 4, rest); RawBack(k[4], Join(k[5..]) + rest);
    JoinStep(k, 5, rest); BoolBack(i.measuring, Join(k[6..]) + rest);
    JoinStep(k, 6, rest); BoolBack(i.enforcing, Join(k[7..]) + rest);
    JoinStep(k, 7, rest); BoolBack(i.osEnforcing, Join(k[8..]) + rest);
  }

  /** Every system information record that can be sent arrives in normal form. */
  lemma InfoBack(i: SystemInfo)
    requires SendableInfo(i)
    ensures ReadInfo(PutInfo(i)) == Success((ArrivesInfo(i), []))
  {
    hide VersionChunks, DeviceChunks, ReadVersions, ReadDevices, SendableInfo;
    var rest := Join(DeviceChunks(i));
    VersionsBack(i, Blank(), rest);
    var d := ReadVersions(Blank(), PutInfo(i)).value.0;
    DevicesBack(i, d, []);
    assert rest + [] == rest;
  }

  // --- writing it, and knowing beforehand how much will be written ---

  method SerialiseInterface(x: InterfaceInfo) returns (out: Bytes)
    requires SendableInterface(x)
    ensures out == Join(InterfaceChunks(x))
  {
    hide Join, PutU32, PutString, PutBool;
    ghost var k := InterfaceChunks(x);
    JoinNone(k);
    out := [];
    out := out + PutU32(|x.hwaddr|); JoinWrite(k, 0);
    out := out + x.hwaddr; JoinWrite(k, 1);
    out := out + PutString(x.name); JoinWrite(k, 2);
    out := out + PutBool(x.link); JoinWrite(k, 3);
    out := out + PutString(x.address); JoinWrite(k, 4);
    out := out + PutString(x.addressV6); JoinWrite(k, 5);
    assert k[..6] == k;
  }

  method InterfaceLength(x: InterfaceInfo) returns (n: nat)
    requires SendableInterface(x)
    ensures n == |Join(InterfaceChunks(x))|
  {
    hide Join, PutU32, PutString;
    ghost var k := InterfaceChunks(x);
    JoinNone(k);
    n := 0;
    n := n + 4; JoinWrite(k, 0);
    n := n + |x.hwaddr|; JoinWrite(k, 1);
    n := n + 4 + OptionalLength(x.name); JoinWrite(k, 2);
    n := n + 1; JoinWrite(k, 3);
    n := n + 4 + OptionalLength(x.address); JoinWrite(k, 4);
    n := n + 4 + OptionalLength(x.addressV6); JoinWrite(k, 5);
    assert k[..6] == k;
  }

  method SerialiseBlockdev(x: BlockdevInfo) returns (out: Bytes)
    requires SendableBlockdev(x)
    ensures out == Join(BlockdevChunks(x))
  {
    hide Join, PutU32, PutString, PutBool;
    ghost var k := BlockdevChunks(x);
    JoinNone(k);
    out := [];
    out := out + PutString(x.name); JoinWrite(k, 0);
    out := out + PutString(x.uuid); JoinWrite(k, 1);
    out := out + PutString(x.mountpoint); JoinWrite(k, 2);
    assert k[..3] == k;
  }

  method BlockdevLength(x: BlockdevInfo) returns (n: nat)
    requires SendableBlockdev(x)
    ensures n == |Join(BlockdevChunks(x))|
  {
    hide Join, PutU32, PutString;
    ghost var k := BlockdevChunks(x);
    JoinNone(k);
    n := 0;
    n := n + 4 + OptionalLength(x.name); JoinWrite(k, 0);
    n := n + 4 + OptionalLength(x.uuid); JoinWrite(k, 1);
    n := n + 4 + OptionalLength(x.mountpoint); JoinWrite(k, 2);
    assert k[..3] == k;
  }

  method SerialiseInterfaces(s: seq<InterfaceInfo>) returns (out: Bytes)
    requires SendableInterfaces(s)
    ensures out == PutInterfaces(s)
  {
    hide Join, InterfaceChunks, SendableInterface;
    out := [];
    var i := 0;
    assert s[0..] == s;
    while i < |s|
      invariant 0 <= i <= |s| && out + PutInterfaces(s[i..]) == PutInterfaces(s)
    {
      assert s[i..][1..] == s[i + 1..];
      var x := SerialiseInterface(s[i]);
      Regroup(out, x, PutInterfaces(s[i + 1..]));
      out := out + x;
      i := i + 1;
    }
  }

  method InterfacesLength(s: seq<InterfaceInfo>) returns (n: nat)
    requires SendableInterfaces(s)
    ensures n == |PutInterfaces(s)|
  {
    hide Join, InterfaceChunks, SendableInterface;
    n := 0;
    var i := 0;
    assert s[0..] == s;
    while i < |s|
      invariant 0 <= i <= |s| && n + |PutInterfaces(s[i..])| == |PutInterfaces(s)|
    {
      assert s[i..][1..] == s[i + 1..];
      var x := InterfaceLength(s[i]);
      n := n + x;
      i := i + 1;
    }
  }

  method SerialiseBlockdevs(s: seq<BlockdevInfo>) returns (out: Bytes)
    requires SendableBlockdevs(s)
    ensures out == PutBlockdevs(s)
  {
    hide Join, BlockdevChunks, SendableBlockdev;
    out := [];
    var i := 0;
    assert s[0..] == s;
    while i < |s|
      invariant 0 <= i <= |s| && out + PutBlockdevs(s[i..]) == PutBlockdevs(s)
    {
      assert s[i..][1..] == s[i + 1..];
      var x := SerialiseBlockdev(s[i]);
      Regroup(out, x, PutBlockdevs(s[i + 1..]));
      out := out + x;
      i := i + 1;
    }
  }

  method BlockdevsLength(s: seq<BlockdevInfo>) returns (n: nat)
    requires SendableBlockdevs(s)
    ensures n == |PutBlockdevs(s)|
  {
    hide Join, BlockdevChunks, SendableBlockdev;
    n := 0;
    var i := 0;
    assert s[0..] == s;
    while i < |s|
      invariant 0 <= i <= |s| && n + |PutBlockdevs(s[i..])| == |PutBlockdevs(s)|
    {
      assert s[i..][1..] == s[i + 1..];
      var x := BlockdevLength(s[i]);
      n := n + x;
      i := i + 1;
    }
  }

  method SerialiseVersions(x: SystemInfo) returns (out: Bytes)
    requires SendableInfo(x)
    ensures out == Join(VersionChunks(x))
  {
    hide Join, PutBool, PutU32, PutString, PutStrings, PutInterfaces, PutBlockdevs, SendableInterface,
      SendableBlockdev, Sendable;
    ghost var k := VersionChunks(x);
    JoinNone(k);
    out := [];
    out := out + PutString(x.kind); JoinWrite(k, 0);
    out := out + PutString(x.identifier); JoinWrite(k, 1);
    out := out + PutU32(|x.primary|); JoinWrite(k, 2);
    var primary := SerialiseStrings(x.primary);
    out := out + primary; JoinWrite(k, 3);
    out := out + PutU32(|x.other|); JoinWrite(k, 4);
    var other := SerialiseStrings(x.other);
    out := out + other; JoinWrite(k, 5);
    out := out + PutU32(|x.bmcCurrent|); JoinWrite(k, 6);
    var bmcCurrent := SerialiseStrings(x.bmcCurrent);
    out := out + bmcCurrent; JoinWrite(k, 7);
    out := out + PutU32(|x.bmcGolden|); JoinWrite(k, 8);
    var bmcGolden := SerialiseStrings(x.bmcGolden);
    out := out + bmcGolden; JoinWrite(k, 9);
    assert k[..10] == k;
  }

  method VersionsLength(x: SystemInfo) returns (n: nat)
    requires SendableInfo(x)
    ensures n == |Join(VersionChunks(x))|
  {
    hide Join, PutU32, PutString, PutStrings, PutInterfaces, PutBlockdevs, SendableInterface, SendableBlockdev,
      Sendable;
    ghost var k := VersionChunks(x);
    JoinNone(k);
    n := 0;
    n := n + 4 + OptionalLength(x.kind); JoinWrite(k, 0);
    n := n + 4 + OptionalLength(x.identifier); JoinWrite(k, 1);
    n := n + 4; JoinWrite(k, 2);
    var primary := StringsLength(x.primary);
    n := n + primary; JoinWrite(k, 3);
    n := n + 4; JoinWrite(k, 4);
    var other := StringsLength(x.other);
    n := n + other; JoinWrite(k, 5);
    n := n + 4; JoinWrite(k, 6);
    var bmcCurrent := StringsLength(x.bmcCurrent);
    n := n + bmcCurrent; JoinWrite(k, 7);
    n := n + 4; JoinWrite(k, 8);
    var bmcGolden := StringsLength(x.bmcGolden);
    n := n + bmcGolden; JoinWrite(k, 9);
    assert k[..10] == k;
  }

  method SerialiseDevices(x: SystemInfo) returns (out: Bytes)
    requires SendableInfo(x)
    ensures out == Join(DeviceChunks(x))
  {
    hide Join, PutBool, PutU32, PutString, PutStrings, PutInterfaces, PutBlockdevs, SendableInterface,
      SendableBlockdev, Sendable;
    ghost var k := DeviceChunks(x);
    JoinNone(k);
    out := [];
    out := out + PutU32(|x.interfaces|); JoinWrite(k, 0);
    var interfaces := SerialiseInterfaces(x.interfaces);
    out := out + interfaces; JoinWrite(k, 1);
    out := out + PutU32(|x.blockdevs|); JoinWrite(k, 2);
    var blockdevs := SerialiseBlockdevs(x.blockdevs);
    out := out + blockdevs; JoinWrite(k, 3);
    out := out + (if x.bmcMac.Some? then x.bmcMac.value else ZERO_MAC); JoinWrite(k, 4);
    out := out + PutBool(x.measuring); JoinWrite(k, 5);
    out := out + PutBool(x.enforcing); JoinWrite(k, 6);
    out := out + PutBool(x.osEnforcing); JoinWrite(k, 7);
    assert k[..8] == k;
  }

  method DevicesLength(x: SystemInfo) returns (n: nat)
    requires SendableInfo(x)
    ensures n == |Join(DeviceChunks(x))|
  {
    hide Join, PutU32, PutString, PutStrings, PutInterfaces, PutBlockdevs, SendableInterface, SendableBlockdev,
      Sendable;
    ghost var k := DeviceChunks(x);
    JoinNone(k);
    n := 0;
    n := n + 4; JoinWrite(k, 0);
    var interfaces := InterfacesLength(x.interfaces);
    n := n + interfaces; JoinWrite(k, 1);
    n := n + 4; JoinWrite(k, 2);
    var blockdevs := BlockdevsLength(x.blockdevs);
    n := n + blockdevs; JoinWrite(k, 3);
    n := n + HWADDR_SIZE; JoinWrite(k, 4);
    n := n + 1; JoinWrite(k, 5);
    n := n + 1; JoinWrite(k, 6);
    n := n + 1; JoinWrite(k, 7);
    assert k[..8] == k;
  }

  /** `pb_protocol_serialise_system_info` */
  method SerialiseInfo(i: SystemInfo) returns (out: Bytes)
    requires SendableInfo(i)
    ensures out == PutInfo(i)
  {
    hide VersionChunks, DeviceChunks, SendableInfo;
    var versions := SerialiseVersions(i);
    var devices := SerialiseDevices(i);
    out := versions + devices;
  }

  /** `pb_protocol_system_info_len`: exactly what the serialiser writes. */
  method InfoLength(i: SystemInfo) returns (n: nat)
    requires SendableInfo(i)
    ensures n == |PutInfo(i)|
  {
    hide VersionChunks, DeviceChunks, SendableInfo;
    var versions := VersionsLength(i);
    var devices := DevicesLength(i);
    n := versions + devices;
  }

  // --- reading it ---

  method DeserialiseInterface(reader: Reader) returns (r: Result<InterfaceInfo>)
    requires reader.Loose()
    modifies reader
    ensures reader.Loose() && Agrees(ReadInterface(old(reader.Rest()), old(reader.Slack())), r, reader.Rest())
    ensures r.Success? ==> reader.Slack() == old(reader.Slack()) + 1
  {
    hide LooseU32, LooseRaw, LooseString, ReadBool;
    var n :- reader.U32();
    var hwaddr :- reader.Raw(n);
    var name :- reader.String();
    var link :- reader.Bool();
    var address :- reader.String();
    var addressV6 :- reader.String();
    return Success(InterfaceInfo(hwaddr, name, link, address, addressV6));
  }

  method DeserialiseBlockdev(reader: Reader) returns (r: Result<BlockdevInfo>)
    requires reader.Loose()
    modifies reader
    ensures reader.Loose() && reader.Slack() == old(reader.Slack())
    ensures Agrees(ReadBlockdev(old(reader.Rest()), old(reader.Slack())), r, reader.Rest())
  {
    hide LooseString;
    var name :- reader.String();
    var uuid :- reader.String();
    var mountpoint :- reader.String();
    return Success(BlockdevInfo(name, uuid, mountpoint));
  }

  method DeserialiseInterfaces(reader: Reader, n: nat) returns (r: Result<seq<InterfaceInfo>>)
    requires reader.Loose()
    modifies reader
    ensures reader.Loose() && Agrees(ReadInterfaces(old(reader.Rest()), n, old(reader.Slack())), r, reader.Rest())
    ensures r.Success? ==> reader.Slack() == old(reader.Slack()) + n
  {
    hide ReadInterface, ReadInterfaces;
    var s := [];
    PrependNone(ReadInterfaces(reader.Rest(), n, reader.Slack()));
    var i := 0;
    while i < n
      invariant 0 <= i <= n && |s| == i && reader.Loose() && reader.Slack() == old(reader.Slack()) + i
      invariant ReadInterfaces(old(reader.Rest()), n, old(reader.Slack())) ==
        Prepend(s, ReadInterfaces(reader.Rest(), n - i, reader.Slack()))
    {
      InterfacesTurn(reader.Rest(), n - i, reader.Slack(), s);
      var x :- DeserialiseInterface(reader);
      s := s + [x];
      i := i + 1;
    }
    InterfacesEnd(reader.Rest(), reader.Slack(), s);
    return Success(s);
  }

  lemma InterfacesEnd(b: Bytes, slack: nat, s: seq<InterfaceInfo>)
    ensures Prepend(s, ReadInterfaces(b, 0, slack)) == Success((s, b))
  {
    assert s + [] == s;
  }

  lemma {:induction false} InterfacesTurn(b: Bytes, n: nat, slack: nat, s: seq<InterfaceInfo>)
    requires n > 0
    ensures var x := ReadInterface(b, slack);
      Prepend(s, ReadInterfaces(b, n, slack)) ==
        match x
        case Malformed => Malformed
        case Overread => Overread
        case Success(v) => Prepend(s + [v.0], ReadInterfaces(v.1, n - 1, slack + 1))
  {
    hide ReadInterface;
    var x := ReadInterface(b, slack);
    if x.Success? {
      var more := ReadInterfaces(x.value.1, n - 1, slack + 1);
      if more.Success? { assert s + ([x.value.0] + more.value.0) == s + [x.value.0] + more.value.0; }
    }
  }

  method DeserialiseBlockdevs(reader: Reader, n: nat) returns (r: Result<seq<BlockdevInfo>>)
    requires reader.Loose()
    modifies reader
    ensures reader.Loose() && reader.Slack() == old(reader.Slack())
    ensures Agrees(ReadBlockdevs(old(reader.Rest()), n, old(reader.Slack())), r, reader.Rest())
  {
    hide ReadBlockdev, ReadBlockdevs;
    var s := [];
    PrependNone(ReadBlockdevs(reader.Rest(), n, reader.Slack()));
    var i := 0;
    while i < n
      invariant 0 <= i <= n && |s| == i && reader.Loose() && reader.Slack() == old(reader.Slack())
      invariant ReadBlockdevs(old(reader.Rest()), n, old(reader.Slack())) ==
        Prepend(s, ReadBlockdevs(reader.Rest(), n - i, reader.Slack()))
    {
      BlockdevsTurn(reader.Rest(), n - i, reader.Slack(), s);
      var x :- DeserialiseBlockdev(reader);
      s := s + [x];
      i := i + 1;
    }
    BlockdevsEnd(reader.Rest(), reader.Slack(), s);
    return Success(s);
  }

  lemma BlockdevsEnd(b: Bytes, slack: nat, s: seq<BlockdevInfo>)
    ensures Prepend(s, ReadBlockdevs(b, 0, slack)) == Success((s, b))
  {
    assert s + [] == s;
  }

  lemma {:induction false} BlockdevsTurn(b: Bytes, n: nat, slack: nat, s: seq<BlockdevInfo>)
    requires n > 0
    ensures var x := ReadBlockdev(b, slack);
      Prepend(s, ReadBlockdevs(b, n, slack)) ==
        match x
        case Malformed => Malformed
        case Overread => Overread
        case Success(v) => Prepend(s + [v.0], ReadBlockdevs(v.1, n - 1, slack))
  {
    hide ReadBlockdev;
    var x := ReadBlockdev(b, slack);
    if x.Success? {
      var more := ReadBlockdevs(x.value.1, n - 1, slack);
      if more.Success? { assert s + ([x.value.0] + more.value.0) == s + [x.value.0] + more.value.0; }
    }
  }

  method DeserialiseVersions(i: SystemInfo, reader: Reader) returns (r: Result<SystemInfo>)
    requires reader.Valid()
    modifies reader
    ensures reader.Valid() && Agrees(ReadVersions(i, old(reader.Rest())), r, reader.Rest())
  {
    hide ReadU32, ReadString, ReadStrings, LooseU32, LooseString;
    var kind :- reader.String();
    var identifier :- reader.String();
    var n :- reader.U32();
    var primary :- reader.Strings(n);
    n :- reader.U32();
    var other :- reader.Strings(n);
    n :- reader.U32();
    var bmcCurrent :- reader.Strings(n);
    n :- reader.U32();
    var bmcGolden :- reader.Strings(n);
    return Success(i.(kind := kind, identifier := identifier, primary := primary, other := other,
                      bmcCurrent := bmcCurrent, bmcGolden := bmcGolden));
  }

  method DeserialiseDevices(i: SystemInfo, reader: Reader) returns (r: Result<SystemInfo>)
    requires reader.Valid()
    modifies reader
    ensures reader.Loose() && Agrees(ReadDevices(i, old(reader.Rest())), r, reader.Rest())
  {
    hide ReadU32, LooseU32, LooseRaw, ReadBool, ReadInterfaces, ReadBlockdevs;
    var n :- reader.U32();
    var interfaces :- DeserialiseInterfaces(reader, n);
    var m :- reader.U32();
    var blockdevs :- DeserialiseBlockdevs(reader, m);
    var mac :- reader.Unchecked(HWADDR_SIZE);
    var measuring :- reader.Bool();
    var enforcing :- reader.Bool();
    var osEnforcing :- reader.Bool();
    return Success(i.(interfaces := interfaces, blockdevs := blockdevs,
                      bmcMac := if mac == ZERO_MAC then i.bmcMac else Some(mac),
                      measuring := measuring, enforcing := enforcing, osEnforcing := osEnforcing));
  }

  /** `pb_protocol_deserialise_system_info` */
  method DeserialiseInfo(payload: Bytes) returns (r: Result<SystemInfo>)
    ensures match ReadInfo(payload)
      case Malformed => r.Malformed?
      case Overread => r.Overread?
      case Success(v) => r == Success(v.0)
  {
    hide ReadVersions, ReadDevices;
    var reader := new Reader(payload);
    var i :- DeserialiseVersions(Blank(), reader);
    r := DeserialiseDevices(i, reader);
  }

  /** Sending and receiving, end to end. */
  method Transmit(i: SystemInfo) returns (r: Result<SystemInfo>)
    requires SendableInfo(i)
    ensures r == Success(ArrivesInfo(i))
  {
    hide PutInfo, ReadInfo, ArrivesInfo;
    var n := InfoLength(i);
    var payload := SerialiseInfo(i);
    assert |payload| == n;
    InfoBack(i);
    r := DeserialiseInfo(payload);
  }
}
