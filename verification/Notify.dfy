/**
 What the server tells its clients (discover/discover-server.c) and what a client does
 with it (ui/common/discover-client.c). Each connection is a queue of messages. Writing
 may fail at any message, after which nothing more is written to that client; a message
 whose payload is too large is not written at all, and the client is not told so.
 */
module Notify {
  import opened Common

  /** `len` is the length of the payload where it does not follow from the rest. */
  datatype Message =
    | DeviceAdd(id: string, len: nat)
    | OptionAdd(device: string, option: nat, len: nat)
    | DeviceRemove(id: string)
    | Other(len: nat)   // authentication, system information, configuration, status, plugins

  const MAX_PAYLOAD: nat := 64 * 1024

  /** `pb_protocol_create_message` returns a message. */
  predicate Fits(m: Message) {
    (if m.DeviceRemove? then |m.id| + 4 else m.len) <= MAX_PAYLOAD
  }

  /** A device as a client knows it. */
  datatype ClientDevice = ClientDevice(id: string, options: seq<nat>)
  type View = seq<ClientDevice>

  // --- the client ---

  ghost predicate Has(view: View, id: string) {
    exists i :: 0 <= i < |view| && view[i].id == id
  }

  /** `assert(dev)` in `boot_option_add` */
  ghost predicate Accepts(view: View, m: Message) {
    m.OptionAdd? ==> Has(view, m.device)
  }

  ghost function First(view: View, id: string): (i: nat)
    ensures i <= |view| && (i < |view| ==> view[i].id == id) && (i == |view| <==> !Has(view, id))
    ensures forall k :: 0 <= k < i ==> view[k].id != id
  {
    if view == [] then 0
    else if view[0].id == id then 0
    else
      var i := First(view[1..], id);
      assert forall k :: 0 <= k < |view| - 1 ==> view[k + 1] == view[1..][k];
      i + 1
  }

  ghost function Handle(view: View, m: Message): (r: View) {
    match m
    case DeviceAdd(id, _) => view + [ClientDevice(id, [])]
    case OptionAdd(id, option, _) =>
      var i := First(view, id);
      if i == |view| then view else view[i := ClientDevice(id, [option] + view[i].options)]
    case DeviceRemove(id) =>
      var i := First(view, id);
      if i == |view| then view else view[..i] + view[i + 1..]
    case Other(_) => view
  }

  class DiscoverClient {
    var devices: View

    constructor ()
      ensures devices == []
    {
      devices := [];
    }

    /** The loop of `find_device` and of `device_remove`. */
    method Find(id: string) returns (i: nat)
      ensures i == First(devices, id)
    {
      i := 0;
      while i < |devices| && devices[i].id != id
        invariant 0 <= i <= First(devices, id)
      {
        i := i + 1;
      }
    }

    /** `discover_client_process`; not `ok`: the assertion fails. */
    method Process(m: Message) returns (ok: bool)
      modifies this
      ensures ok <==> Accepts(old(devices), m)
      ensures devices == if ok then Handle(old(devices), m) else old(devices)
    {
      ok := true;
      match m {
        case DeviceAdd(id, _) => devices := devices + [ClientDevice(id, [])];
        case OptionAdd(id, option, _) =>
          var i := Find(id);
          if i == |devices| {
            return false;
          }
          devices := devices[i := ClientDevice(id, [option] + devices[i].options)];
        case DeviceRemove(id) =>
          var i := Find(id);
          if i < |devices| {
            devices := devices[..i] + devices[i + 1..];
          }
        case Other(_) =>
      }
    }
  }

  // --- a queue of messages ---

  ghost function End(view: View, queue: seq<Message>): (r: View) {
    if queue == [] then view else Handle(End(view, queue[..|queue| - 1]), queue[|queue| - 1])
  }

  /** Whichever part of the queue the client has processed, it accepts the next message. */
  ghost predicate Plays(view: View, queue: seq<Message>) {
    queue == [] || (Plays(view, queue[..|queue| - 1]) && Accepts(End(view, queue[..|queue| - 1]), queue[|queue| - 1]))
  }

  lemma Queued(view: View, queue: seq<Message>, m: Message)
    ensures End(view, queue + [m]) == Handle(End(view, queue), m)
    ensures Plays(view, queue + [m]) <==> Plays(view, queue) && Accepts(End(view, queue), m)
  {
    assert (queue + [m])[..|queue|] == queue;
  }

  /** Processing the first message leaves the end of the queue where it was. */
  lemma {:induction false} Dequeued(view: View, queue: seq<Message>)
    requires queue != []
    ensures End(Handle(view, queue[0]), queue[1..]) == End(view, queue)
    ensures Plays(view, queue) <==> Accepts(view, queue[0]) && Plays(Handle(view, queue[0]), queue[1..])
  {
    var n := |queue| - 1;
    var init := queue[..n];
    assert queue == init + [queue[n]];
    Queued(view, init, queue[n]);
    if n > 0 {
      Dequeued(view, init);
      assert queue[1..] == init[1..] + [queue[n]];
      Queued(Handle(view, queue[0]), init[1..], queue[n]);
    }
  }

  /** No message but its removal makes a client forget a device. */
  lemma StillHas(view: View, m: Message, id: string)
    requires Has(view, id) && m != DeviceRemove(id)
    ensures Has(Handle(view, m), id)
  {
    var i :| 0 <= i < |view| && view[i].id == id;
    var after := Handle(view, m);
    match m
    case DeviceAdd(_, _) => assert after[i].id == id;
    case OptionAdd(_, _, _) => assert after[i].id == id;
    case DeviceRemove(other) =>
      var k := First(view, other);
      if k == |view| || i < k { assert after[i].id == id; } else { assert after[i - 1].id == id; }
    case Other(_) => assert after[i].id == id;
  }

  // --- what a client shows ---

  lemma FirstIs(view: View, id: string, i: nat)
    requires i < |view| && view[i].id == id && forall k :: 0 <= k < i ==> view[k].id != id
    ensures First(view, id) == i
  {
    hide First;
  }

  lemma FirstNone(view: View, id: string)
    requires forall k :: 0 <= k < |view| ==> view[k].id != id
    ensures First(view, id) == |view| && !Has(view, id)
  {
    hide First;
  }

  /** A new option joins those of its device, and no other device changes. */
  lemma OptionArrives(view: View, id: string, o: nat, len: nat)
    requires Has(view, id)
    ensures var after, i := Handle(view, OptionAdd(id, o, len)), First(view, id);
      && |after| == |view| && after[i].id == id
      && multiset(after[i].options) == multiset(view[i].options) + multiset{o}
      && forall k :: 0 <= k < |view| && k != i ==> after[k] == view[k]
  {
    hide First;
    var i := First(view, id);
    assert multiset([o] + view[i].options) == multiset{o} + multiset(view[i].options);
  }

  /** How often a client has a device. */
  ghost function Times(view: View, id: string): (n: nat)
    ensures n > 0 <==> Has(view, id)
  {
    if view == [] then 0
    else
      var rest := Times(view[..|view| - 1], id);
      assert view == view[..|view| - 1] + [view[|view| - 1]];
      rest + if view[|view| - 1].id == id then 1 else 0
  }

  lemma {:induction false} TimesJoined(a: View, b: View, id: string)
    ensures Times(a + b, id) == Times(a, id) + Times(b, id)
  {
    if b == [] {
      assert a + b == a;
    } else {
      var n := |b| - 1;
      assert (a + b)[..|a| + n] == a + b[..n];
      TimesJoined(a, b[..n], id);
    }
  }

  lemma TimesOne(x: ClientDevice, id: string)
    ensures Times([x], id) == if x.id == id then 1 else 0
  {
    assert [x][..0] == [];
  }

  /** A removal takes out the first of the devices with the id; so a client forgets a device if it had it once. */
  lemma RemovalForgets(view: View, id: string, other: string)
    requires Has(view, id)
    ensures Times(Handle(view, DeviceRemove(id)), other) == Times(view, other) - if other == id then 1 else 0
    ensures Has(Handle(view, DeviceRemove(id)), id) <==> Times(view, id) > 1
  {
    hide First, Times;
    var i := First(view, id);
    assert view == view[..i] + ([view[i]] + view[i + 1..]);
    forall x ensures Times(Handle(view, DeviceRemove(id)), x) == Times(view, x) - if x == id then 1 else 0 {
      TimesJoined(view[..i], view[i + 1..], x);
      TimesJoined([view[i]], view[i + 1..], x);
      TimesJoined(view[..i], [view[i]] + view[i + 1..], x);
      TimesOne(view[i], x);
    }
  }

  /** The options announced for each announced device, in order. */
  type Shown = map<string, seq<nat>>

  ghost function Updated(shown: Shown, m: Message): (r: Shown) {
    match m
    case DeviceAdd(id, _) => shown[id := []]
    case OptionAdd(id, o, _) => if id in shown then shown[id := shown[id] + [o]] else shown
    case DeviceRemove(id) => shown - {id}
    case Other(_) => shown
  }

  /** The first device with an announced id has its options, the latest first; all other entries are empty. */
  ghost predicate ShowsAt(view: View, shown: Shown, i: nat)
    requires i < |view|
  {
    var id := view[i].id;
    view[i].options == if id in shown && First(view, id) == i then Reversed(shown[id]) else []
  }

  ghost predicate Shows(view: View, shown: Shown) {
    && (forall id :: id in shown ==> Has(view, id))
    && (forall i :: 0 <= i < |view| ==> ShowsAt(view, shown, i))
  }

  /** What a client lists for an announced device is what was announced. */
  lemma ShowsDevice(view: View, shown: Shown, id: string)
    requires Shows(view, shown) && id in shown
    ensures First(view, id) < |view| && view[First(view, id)] == ClientDevice(id, Reversed(shown[id]))
  {
    assert ShowsAt(view, shown, First(view, id));
  }

  lemma {:induction false} AddShows(view: View, shown: Shown, id: string, len: nat)
    requires Shows(view, shown) && id !in shown
    ensures Shows(Handle(view, DeviceAdd(id, len)), Updated(shown, DeviceAdd(id, len)))
  {
    hide First;
    var after, now := view + [ClientDevice(id, [])], shown[id := []];
    assert after[|view|].id == id;
    forall x | x in now ensures Has(after, x) { if x != id { StillHas(view, DeviceAdd(id, len), x); } }
    forall i | 0 <= i < |after| ensures ShowsAt(after, now, i) {
      if i < |view| {
        assert ShowsAt(view, shown, i) && after[i] == view[i];
        FirstKept(view, after, view[i].id);
      }
    }
  }

  /** A longer list has the same first device with an id, if there was one. */
  lemma FirstKept(view: View, after: View, id: string)
    requires |view| <= |after| && Has(view, id)
    requires forall k :: 0 <= k < |view| ==> after[k].id == view[k].id
    ensures First(after, id) == First(view, id)
  {
    hide First;
    FirstIs(after, id, First(view, id));
  }

  lemma {:induction false} OptionShows(view: View, shown: Shown, id: string, o: nat, len: nat)
    requires Shows(view, shown) && id in shown
    ensures Shows(Handle(view, OptionAdd(id, o, len)), Updated(shown, OptionAdd(id, o, len)))
  {
    var after, now := Handle(view, OptionAdd(id, o, len)), shown[id := shown[id] + [o]];
    forall x | x in now ensures Has(after, x) { StillHas(view, OptionAdd(id, o, len), x); }
    OptionGiven(view, id, o, len);
    ShowsDevice(view, shown, id);
    hide First, Handle, Has, Reversed;
    ReversedMore(shown[id], o);
    forall i | 0 <= i < |after| ensures ShowsAt(after, now, i) {
      assert ShowsAt(view, shown, i);
      FirstKept(view, after, view[i].id);
    }
  }

  lemma OptionGiven(view: View, id: string, o: nat, len: nat)
    requires Has(view, id)
    ensures var after, k := Handle(view, OptionAdd(id, o, len)), First(view, id);
      && k < |view| && |after| == |view| && after[k] == ClientDevice(id, [o] + view[k].options)
      && (forall i :: 0 <= i < |view| ==> after[i].id == view[i].id && Has(view, view[i].id))
      && (forall i :: 0 <= i < |view| && i != k ==> after[i] == view[i])
  {
    hide First;
  }

  lemma {:induction false} RemoveShows(view: View, shown: Shown, id: string)
    requires Shows(view, shown)
    ensures Shows(Handle(view, DeviceRemove(id)), Updated(shown, DeviceRemove(id)))
  {
    hide First;
    var m, k := DeviceRemove(id), First(view, id);
    var after, now := Handle(view, m), shown - {id};
    forall x | x in now ensures Has(after, x) { StillHas(view, m, x); }
    forall i | 0 <= i < |after| ensures ShowsAt(after, now, i) {
      var j := if i < k then i else i + 1;
      if k == |view| {
        assert ShowsAt(view, shown, i);
      } else {
        assert ShowsAt(view, shown, j) && after[i] == view[j];
        if view[j].id != id { FirstShifted(view, after, k, view[j].id); }
      }
    }
  }

  lemma {:induction false} FirstShifted(view: View, after: View, k: nat, id: string)
    requires k < |view| && after == view[..k] + view[k + 1..] && Has(view, id) && view[k].id != id
    ensures First(after, id) == if First(view, id) < k then First(view, id) else First(view, id) - 1
  {
    hide First, Has;
    var i := First(view, id);
    assert i < |view| && i != k;
    var j := if i < k then i else i - 1;
    assert after[j] == view[i];
    forall x | 0 <= x < j ensures after[x].id != id { assert after[x] == view[if x < k then x else x + 1]; }
    FirstIs(after, id, j);
  }

  /** Every message that is sent for what is announced keeps it so. */
  lemma HandleShows(view: View, shown: Shown, m: Message)
    requires Shows(view, shown) && (m.DeviceAdd? ==> m.id !in shown) && (m.OptionAdd? ==> m.device in shown)
    ensures Shows(Handle(view, m), Updated(shown, m))
  {
    hide Shows, Handle, Updated;
    match m
    case DeviceAdd(id, len) => AddShows(view, shown, id, len);
    case OptionAdd(id, o, len) => OptionShows(view, shown, id, o, len);
    case DeviceRemove(id) => RemoveShows(view, shown, id);
    case Other(len) => OtherShows(view, shown, len);
  }

  lemma OtherShows(view: View, shown: Shown, len: nat)
    ensures Handle(view, Other(len)) == view && Updated(shown, Other(len)) == shown
  {
  }

  // --- the server ---

  datatype Client = Client(remoteClosed: bool, queue: seq<Message>, view: View)

  /** A client that can still be written to will have heard of every device in `known`. */
  ghost predicate Informed(c: Client, known: set<string>) {
    Plays(c.view, c.queue) && (!c.remoteClosed ==> forall id :: id in known ==> Has(End(c.view, c.queue), id))
  }

  /** The devices that clients should know of once the message has been sent. */
  ghost predicate Told(known: set<string>, m: Message, after: set<string>) {
    match m
    case DeviceAdd(id, _) => after == known + {id}
    case OptionAdd(id, _, _) => id in known && after == known
    case DeviceRemove(id) => after == known - {id}
    case Other(_) => after == known
  }

  /** Create and write a message: one that does not fit is skipped, a failed write closes the connection. */
  function Write(c: Client, m: Message, fails: bool): (r: Client) {
    if !Fits(m) || c.remoteClosed then c
    else if fails then c.(remoteClosed := true)
    else c.(queue := c.queue + [m])
  }

  /** A write that fails closes the connection: the message is lost, and so is everything after it. */
  lemma ClosedForGood(c: Client, m: Message, next: Message, fails: bool)
    requires !c.remoteClosed && Fits(m)
    ensures var r := Write(c, m, true);
      r == c.(remoteClosed := true) && Write(r, next, fails) == r
    ensures Write(c, m, false) == c.(queue := c.queue + [m])
  {
  }

  /** Whatever is sent, an informed client stays informed, unless it is a device that does not fit. */
  lemma Written(c: Client, m: Message, fails: bool, known: set<string>, after: set<string>)
    requires Informed(c, known) && Told(known, m, after) && (m.DeviceAdd? ==> Fits(m))
    ensures Informed(Write(c, m, fails), after)
  {
    Queued(c.view, c.queue, m);
    var end := End(c.view, c.queue);
    if !c.remoteClosed && !fails && Fits(m) {
      forall id | id in after ensures Has(Handle(end, m), id) {
        if id in known {
          StillHas(end, m, id);
        } else {
          assert Handle(end, m)[|end|].id == id;
        }
      }
    }
  }

  /** An open client will show what has been announced, once it has processed its queue. */
  ghost predicate Current(c: Client, shown: Shown) {
    !c.remoteClosed ==> Shows(End(c.view, c.queue), shown)
  }

  lemma WrittenCurrent(c: Client, m: Message, fails: bool, shown: Shown)
    requires Current(c, shown) && Fits(m) && (m.DeviceAdd? ==> m.id !in shown) && (m.OptionAdd? ==> m.device in shown)
    ensures Current(Write(c, m, fails), Updated(shown, m))
  {
    hide Shows, Updated, End, Handle, Plays;
    if !c.remoteClosed && !fails {
      Queued(c.view, c.queue, m);
      HandleShows(End(c.view, c.queue), shown, m);
    }
  }

  ghost predicate AllInformed(clients: seq<Client>, known: set<string>) {
    forall k :: 0 <= k < |clients| ==> Informed(clients[k], known)
  }

  ghost predicate AllCurrent(clients: seq<Client>, shown: Shown) {
    forall k :: 0 <= k < |clients| ==> Current(clients[k], shown)
  }

  /** What a message to every client keeps of all of them. */
  lemma AllWritten(before: seq<Client>, now: seq<Client>, m: Message, fails: nat -> bool, known: set<string>,
      shown: Shown,
      after: set<string>)
    requires |now| == |before| && forall k :: 0 <= k < |now| ==> now[k] == Write(before[k], m, fails(k))
    requires known == shown.Keys && Told(known, m, after)
    ensures Updated(shown, m).Keys == after
    ensures (m.DeviceAdd? ==> Fits(m)) && AllInformed(before, known) ==> AllInformed(now, after)
    ensures Fits(m) && (m.DeviceAdd? ==> m.id !in shown) && AllCurrent(before, shown) ==>
      AllCurrent(now, Updated(shown, m))
  {
    ToldUpdated(known, shown, m, after);
    hide Informed, Current, Told, Write, Updated;
    if (m.DeviceAdd? ==> Fits(m)) && AllInformed(before, known) {
      forall k | 0 <= k < |now| ensures Informed(now[k], after) { Written(before[k], m, fails(k), known, after); }
    }
    if Fits(m) && (m.DeviceAdd? ==> m.id !in shown) && AllCurrent(before, shown) {
      forall k | 0 <= k < |now| ensures Current(now[k], Updated(shown, m)) {
        WrittenCurrent(before[k], m, fails(k), shown);
      }
    }
  }

  /** The messages about a new option: the device first, unless it was announced before. */
  function Announced(c: Client, id: string, len: nat, o: nat, optionLen: nat, first: bool, failsDevice: bool,
      failsOption: bool): (r: Client) {
    Write(if first then Write(c, DeviceAdd(id, len), failsDevice) else c, OptionAdd(id, o, optionLen), failsOption)
  }

  /**
   Exactly when an open client, none of whose writes fail, can go on to process the
   announcement of an option that fits: it knows the device, or is told of it now.
   */
  lemma AnnouncedIff(c: Client, id: string, len: nat, o: nat, optionLen: nat, first: bool)
    requires !c.remoteClosed && Plays(c.view, c.queue) && Fits(OptionAdd(id, o, optionLen))
    ensures var r := Announced(c, id, len, o, optionLen, first, false, false);
      Plays(r.view, r.queue) <==> Has(End(c.view, c.queue), id) || (first && Fits(DeviceAdd(id, len)))
  {
    hide Plays, End, Handle;
    var m := OptionAdd(id, o, optionLen);
    if first && Fits(DeviceAdd(id, len)) {
      Queued(c.view, c.queue, DeviceAdd(id, len));
      AddedHas(End(c.view, c.queue), id, len);
      Queued(c.view, c.queue + [DeviceAdd(id, len)], m);
    } else {
      Queued(c.view, c.queue, m);
    }
  }

  lemma AddedHas(view: View, id: string, len: nat)
    ensures Has(Handle(view, DeviceAdd(id, len)), id)
  {
    assert Handle(view, DeviceAdd(id, len))[|view|].id == id;
  }

  class DiscoverServer {
    var clients: seq<Client>
    /** The devices that have been announced and not withdrawn. */
    ghost var known: set<string>
    /** The options announced for each of them. */
    ghost var shown: Shown
    /** Every device that was announced fitted, and so did what new clients had to be told. */
    ghost var intact: bool
    /** Every message fitted, and new clients were told of exactly what had been announced. */
    ghost var complete: bool
    /** How many clients ran into their assertion. */
    ghost var failures: nat

    constructor ()
      ensures Valid() && known == {} && shown == map[] && clients == [] && intact && complete && failures == 0
    {
      clients, known, intact, failures := [], {}, true, 0;
      shown, complete := map[], true;
    }

    ghost predicate Valid()
      reads this
    {
      && known == shown.Keys
      && (intact ==> failures == 0 && AllInformed(clients, known))
      && (complete ==> AllCurrent(clients, shown))
    }

    /** The loops of `discover_server_notify_device_add`, `_boot_option_add` and `_device_remove`. */
    method Broadcast(m: Message, fails: nat -> bool, ghost after: set<string>)
      requires Valid() && Told(known, m, after)
      modifies this
      ensures Valid() && known == after && intact == (old(intact) && (m.DeviceAdd? ==> Fits(m)))
        && failures == old(failures)
      ensures shown == Updated(old(shown), m)
      ensures complete == (old(complete) && Fits(m) && (m.DeviceAdd? ==> m.id !in old(shown)))
      ensures |clients| == |old(clients)| && forall i :: 0 <= i < |clients| ==>
        clients[i] == Write(old(clients)[i], m, fails(i))
    {
      hide Write, AllInformed, AllCurrent, Updated, Told;
      var i := 0;
      while i < |clients|
        invariant 0 <= i <= |clients| == |old(clients)|
        invariant known == old(known) && shown == old(shown) && intact == old(intact)
        invariant complete == old(complete) && failures == old(failures)
        invariant forall k :: i <= k < |clients| ==> clients[k] == old(clients)[k]
        invariant forall k :: 0 <= k < i ==> clients[k] == Write(old(clients)[k], m, fails(k))
      {
        clients := clients[i := Write(clients[i], m, fails(i))];
        i := i + 1;
      }
      AllWritten(old(clients), clients, m, fails, known, shown, after);
      intact := intact && (m.DeviceAdd? ==> Fits(m));
      complete := complete && Fits(m) && (m.DeviceAdd? ==> m.id !in shown);
      known, shown := after, Updated(shown, m);
    }

    /** The messages about a new option of a device (`notify_boot_option` in the handler). */
    method Announce(id: string, len: nat, o: nat, optionLen: nat, first: bool, failsDevice: nat -> bool,
        failsOption: nat -> bool)
      requires Valid() && (!first ==> id in known)
      modifies this
      ensures shown == Updated(if first then old(shown)[id := []] else old(shown), OptionAdd(id, o, optionLen))
      ensures complete == (old(complete) && (first ==> Fits(DeviceAdd(id, len)) && id !in old(known))
        && Fits(OptionAdd(id, o, optionLen)))
      ensures Valid() && known == old(known) + {id} && intact == (old(intact) && (first ==> Fits(DeviceAdd(id, len))))
      ensures |clients| == |old(clients)| && failures == old(failures)
      ensures forall i :: 0 <= i < |clients| ==>
        clients[i] == Announced(old(clients)[i], id, len, o, optionLen, first, failsDevice(i), failsOption(i))
    {
      hide Informed, Write;
      if first {
        Broadcast(DeviceAdd(id, len), failsDevice, known + {id});
      }
      Broadcast(OptionAdd(id, o, optionLen), failsOption, known);
    }

    /**
     `discover_server_process_connection`: a new client is told of every device and every
     option, up to the first message that does not fit or cannot be written.
     */
    method Connect(devices: seq<Listing>, others: seq<nat>, fails: nat -> bool)
      requires Valid()
      modifies this
      ensures Valid() && known == old(known) && failures == old(failures)
      ensures intact == (old(intact) && Covers(Fitting(Enumeration(devices, others)), known))
      ensures shown == old(shown)
      ensures complete == (old(complete) && AllFit(Enumeration(devices, others)) && Tells(devices, shown))
      ensures |clients| == |old(clients)| + 1 && clients[1..] == old(clients)
      ensures Partial(clients[0], Enumeration(devices, others), fails)
      ensures (forall n :: !fails(n)) ==> clients[0] == Client(false, Fitting(Enumeration(devices, others)), [])
    {
      hide Informed, Enumeration, Fitting, Partial, Covers, Current, AllFit, Tells;
      var c := Enumerate(devices, others, fails);
      PartialFitting(c, Enumeration(devices, others), fails);
      if Covers(Fitting(Enumeration(devices, others)), known) { NewcomerInformed(c, devices, others, fails, known); }
      intact := intact && Covers(Fitting(Enumeration(devices, others)), known);
      if AllFit(Enumeration(devices, others)) && Tells(devices, shown) {
        NewcomerCurrent(c, devices, others, fails, shown);
      }
      complete := complete && AllFit(Enumeration(devices, others)) && Tells(devices, shown);
      clients := [c] + clients;
    }

    /** A connection goes away. */
    method Drop(i: nat)
      requires Valid() && i < |clients|
      modifies this`clients
      ensures Valid() && clients == old(clients)[..i] + old(clients)[i + 1..]
    {
      clients := clients[..i] + clients[i + 1..];
    }

    /** A client processes the next message in its queue; if its assertion fails it is gone. */
    method Deliver(i: nat) returns (ok: bool)
      requires Valid() && i < |clients| && clients[i].queue != []
      modifies this
      ensures Valid() && known == old(known) && intact == old(intact)
      ensures shown == old(shown) && complete == old(complete)
      ensures ok <==> Accepts(old(clients)[i].view, old(clients)[i].queue[0])
      ensures intact ==> ok
      ensures failures == old(failures) + if ok then 0 else 1
      ensures clients == if ok
        then old(clients)[i := Client(old(clients)[i].remoteClosed, old(clients)[i].queue[1..],
                                      Handle(old(clients)[i].view, old(clients)[i].queue[0]))]
        else old(clients)[..i] + old(clients)[i + 1..]
    {
      var c := clients[i];
      Dequeued(c.view, c.queue);
      var ui := new DiscoverClient();
      ui.devices := c.view;
      ok := ui.Process(c.queue[0]);
      if ok {
        clients := clients[i := Client(c.remoteClosed, c.queue[1..], ui.devices)];
      } else {
        failures := failures + 1;
        clients := clients[..i] + clients[i + 1..];
      }
    }

    /** A client processes everything that has been sent to it. */
    method DeliverAll(i: nat) returns (ok: bool)
      requires Valid() && i < |clients|
      modifies this
      ensures Valid() && intact == old(intact) && shown == old(shown) && complete == old(complete)
      ensures ok <==> Plays(old(clients)[i].view, old(clients)[i].queue)
      ensures failures == old(failures) + if ok then 0 else 1
    {
      ghost var c := clients[i];
      ok := true;
      while clients[i].queue != []
        invariant Valid() && i < |clients| && intact == old(intact) && failures == old(failures)
        invariant shown == old(shown) && complete == old(complete)
        invariant Plays(c.view, c.queue) <==> Plays(clients[i].view, clients[i].queue)
        decreases |clients[i].queue|
      {
        Dequeued(clients[i].view, clients[i].queue);
        ok := Deliver(i);
        if !ok {
          return;
        }
      }
      ok := true;
    }
  }

  lemma ToldUpdated(known: set<string>, shown: Shown, m: Message, after: set<string>)
    requires known == shown.Keys && Told(known, m, after)
    ensures Updated(shown, m).Keys == after && (m.OptionAdd? ==> m.device in shown)
  {
  }

  // --- enumerating the devices for a new client ---

  datatype Item = Item(option: nat, len: nat)

  /** A device with its boot options, as the server enumerates it. */
  datatype Listing = Listing(id: string, len: nat, options: seq<Item>)

  ghost function Announcement(d: Listing): (r: seq<Message>)
    ensures |r| == 1 + |d.options| && r[0] == DeviceAdd(d.id, d.len)
    ensures forall k :: 0 <= k < |d.options| ==> r[k + 1] == OptionAdd(d.id, d.options[k].option, d.options[k].len)
  {
    [DeviceAdd(d.id, d.len)] +
    seq(|d.options|, k requires 0 <= k < |d.options| => OptionAdd(d.id, d.options[k].option, d.options[k].len))
  }

  ghost function Others(lengths: seq<nat>): (r: seq<Message>)
    ensures |r| == |lengths| && forall k :: 0 <= k < |r| ==> r[k] == Other(lengths[k])
  {
    seq(|lengths|, k requires 0 <= k < |lengths| => Other(lengths[k]))
  }

  /**
   What a new client should be sent: `others` (authentication, system information, configuration),
   then the devices.
   */
  ghost function Enumeration(devices: seq<Listing>, others: seq<nat>): (r: seq<Message>) {
    if devices == [] then Others(others)
    else Enumeration(devices[..|devices| - 1], others) + Announcement(devices[|devices| - 1])
  }

  /** The messages in front of the first that does not fit. */
  ghost function Fitting(s: seq<Message>): (r: seq<Message>)
    ensures r <= s && (forall k :: 0 <= k < |r| ==> Fits(r[k])) && (|r| < |s| ==> !Fits(s[|r|]))
  {
    if s == [] || !Fits(s[0]) then [] else
      var rest := Fitting(s[1..]);
      assert forall k :: 0 <= k < |s| - 1 ==> s[1..][k] == s[k + 1];
      [s[0]] + rest
  }

  /** Every device in `known` is among the messages. */
  ghost predicate Covers(s: seq<Message>, known: set<string>) {
    forall id :: id in known ==> Names(s, id)
  }

  ghost predicate Names(s: seq<Message>, id: string) {
    exists j :: 0 <= j < |s| && s[j].DeviceAdd? && s[j].id == id
  }

  /** The client has been sent `all`, or a part of it up to a message that did not fit or could not be written. */
  ghost predicate Partial(c: Client, all: seq<Message>, fails: nat -> bool) {
    && c.view == [] && c.queue <= all && (forall k :: 0 <= k < |c.queue| ==> Fits(c.queue[k]))
    && if c.remoteClosed then exists n :: fails(n) else |c.queue| < |all| ==> !Fits(all[|c.queue|])
  }

  lemma PartialFitting(c: Client, all: seq<Message>, fails: nat -> bool)
    requires Partial(c, all, fails)
    ensures c.queue <= Fitting(all) && (!c.remoteClosed ==> c.queue == Fitting(all))
    ensures (forall n :: !fails(n)) ==> c == Client(false, Fitting(all), [])
  {
    var f := Fitting(all);
    if |c.queue| < |f| { assert f[|c.queue|] == all[|c.queue|]; }
  }

  /** The enumeration is in order: every option comes after its device. */
  lemma {:induction false} EnumerationPlays(devices: seq<Listing>, others: seq<nat>)
    ensures Plays([], Enumeration(devices, others))
  {
    hide Plays;
    if devices == [] {
      OthersPlay(Others(others));
    } else {
      var n := |devices| - 1;
      var news := Announcement(devices[n]);
      EnumerationPlays(devices[..n], others);
      AnnouncementPlays(Enumeration(devices[..n], others), devices[n], |news|);
      assert news[..|news|] == news;
    }
  }

  /** It removes nothing. */
  lemma {:induction false} EnumerationAdds(devices: seq<Listing>, others: seq<nat>)
    ensures forall k :: 0 <= k < |Enumeration(devices, others)| ==> !Enumeration(devices, others)[k].DeviceRemove?
  {
    if devices != [] {
      var n := |devices| - 1;
      EnumerationAdds(devices[..n], others);
      var news := Announcement(devices[n]);
      assert forall k :: 0 <= k < |news| ==> !news[k].DeviceRemove? by {
        forall k | 0 <= k < |news| ensures !news[k].DeviceRemove? { if k > 0 { assert news[k - 1 + 1].OptionAdd?; } }
      }
    }
  }

  lemma {:induction false} OthersPlay(s: seq<Message>)
    requires forall k :: 0 <= k < |s| ==> s[k].Other?
    ensures Plays([], s)
  {
    if s != [] { OthersPlay(s[..|s| - 1]); }
  }

  lemma {:induction false} AnnouncementPlays(s: seq<Message>, d: Listing, k: nat)
    requires Plays([], s) && k <= |Announcement(d)|
    ensures Plays([], s + Announcement(d)[..k]) && (k > 0 ==> Has(End([], s + Announcement(d)[..k]), d.id))
  {
    hide Plays, End, Has, Handle;
    var news := Announcement(d);
    if k == 0 {
      assert s + news[..0] == s;
    } else {
      AnnouncementPlays(s, d, k - 1);
      var before := s + news[..k - 1];
      assert s + news[..k] == before + [news[k - 1]];
      Queued([], before, news[k - 1]);
      if k == 1 {
        AddedHas(End([], before), d.id, d.len);
      } else {
        assert news[k - 2 + 1].OptionAdd? && news[k - 1].device == d.id;
        StillHas(End([], before), news[k - 1], d.id);
      }
    }
  }

  lemma {:induction false} PlaysPart(view: View, s: seq<Message>, n: nat)
    requires Plays(view, s) && n <= |s|
    ensures Plays(view, s[..n])
  {
    if n < |s| {
      PlaysPart(view, s[..|s| - 1], n);
      assert s[..|s| - 1][..n] == s[..n];
    } else {
      assert s[..n] == s;
    }
  }

  /** Without removals a client ends up with exactly the devices it was told of. */
  lemma {:induction false} EndHas(s: seq<Message>, id: string)
    requires forall k :: 0 <= k < |s| ==> !s[k].DeviceRemove?
    ensures Has(End([], s), id) <==> Names(s, id)
  {
    if s != [] {
      var n := |s| - 1;
      var before := s[..n];
      EndHas(before, id);
      Queued([], before, s[n]);
      assert s == before + [s[n]];
      HandleHas(End([], before), s[n], id);
      hide End, Has;
      assert Names(s, id) <==>
        Names(before, id) || (s[n].DeviceAdd? && s[n].id == id) by { NamesMore(before, s[n], id); }
    }
  }

  lemma NamesMore(s: seq<Message>, m: Message, id: string)
    ensures Names(s + [m], id) <==> Names(s, id) || (m.DeviceAdd? && m.id == id)
  {
    var all := s + [m];
    if Names(s, id) {
      var j :| 0 <= j < |s| && s[j].DeviceAdd? && s[j].id == id;
      assert all[j] == s[j];
    }
    if m.DeviceAdd? && m.id == id { assert all[|s|] == m; }
  }

  lemma HandleHas(view: View, m: Message, id: string)
    requires !m.DeviceRemove?
    ensures Has(Handle(view, m), id) <==> Has(view, id) || (m.DeviceAdd? && m.id == id)
  {
    if Has(view, id) { StillHas(view, m, id); }
    if m.DeviceAdd? { AddedHas(view, m.id, m.len); }
  }

  lemma NewcomerInformed(c: Client, devices: seq<Listing>, others: seq<nat>, fails: nat -> bool, known: set<string>)
    requires Partial(c, Enumeration(devices, others), fails) && Covers(Fitting(Enumeration(devices, others)), known)
    ensures Informed(c, known)
  {
    var all := Enumeration(devices, others);
    hide Plays, End, Enumeration, Has;
    EnumerationPlays(devices, others);
    EnumerationAdds(devices, others);
    PlaysPart([], all, |c.queue|);
    PartialFitting(c, all, fails);
    assert c.queue == all[..|c.queue|];
    if !c.remoteClosed {
      forall id | id in known ensures Has(End(c.view, c.queue), id) {
        EndHas(c.queue, id);
      }
    }
  }

  /**
   An open newcomer none of whose writes failed is informed if and only if every announced device
   comes before the first message that does not fit.
   */
  lemma NewcomerInformedIff(c: Client, devices: seq<Listing>, others: seq<nat>, fails: nat -> bool, known: set<string>)
    requires Partial(c, Enumeration(devices, others), fails) && !c.remoteClosed
    ensures Informed(c, known) <==> Covers(Fitting(Enumeration(devices, others)), known)
  {
    hide Plays, End, Enumeration, Has;
    if Covers(Fitting(Enumeration(devices, others)), known) { NewcomerInformed(c, devices, others, fails, known); }
    if Informed(c, known) {
      EnumerationAdds(devices, others);
      PartialFitting(c, Enumeration(devices, others), fails);
      forall id | id in known ensures Names(c.queue, id) { EndHas(c.queue, id); }
    }
  }

  // --- what a new client shows ---

  ghost predicate AllFit(s: seq<Message>) {
    forall k :: 0 <= k < |s| ==> Fits(s[k])
  }

  ghost function OptionIds(d: Listing): (r: seq<nat>) {
    seq(|d.options|, k requires 0 <= k < |d.options| => d.options[k].option)
  }

  ghost predicate DifferentIds(devices: seq<Listing>) {
    forall i, j :: 0 <= i < j < |devices| ==> devices[i].id != devices[j].id
  }

  /** The devices are those announced, with the options announced, and others without options. */
  ghost predicate Tells(devices: seq<Listing>, shown: Shown) {
    && DifferentIds(devices)
    && (forall id :: id in shown ==> exists i :: 0 <= i < |devices| && devices[i].id == id)
    && (forall i :: 0 <= i < |devices| ==>
          OptionIds(devices[i]) == if devices[i].id in shown then shown[devices[i].id] else [])
  }

  /** A client's devices after the enumeration. */
  ghost function Pictures(devices: seq<Listing>): (view: View) {
    seq(|devices|, i requires 0 <= i < |devices| => ClientDevice(devices[i].id, Reversed(OptionIds(devices[i]))))
  }

  lemma {:induction false} EnumerationShows(devices: seq<Listing>, others: seq<nat>)
    requires DifferentIds(devices)
    ensures End([], Enumeration(devices, others)) == Pictures(devices)
  {
    if devices == [] {
      OthersShow(Others(others));
    } else {
      var n := |devices| - 1;
      var before, news := Enumeration(devices[..n], others), Announcement(devices[n]);
      EnumerationShows(devices[..n], others);
      EnumerationLast(devices, others);
      PicturesLast(devices);
      hide End, Enumeration, Pictures, OptionIds;
      AnnouncementShows(before, devices[..n], devices[n], |news|);
      assert news[..|news|] == news && OptionIds(devices[n])[..|news| - 1] == OptionIds(devices[n]);
    }
  }

  lemma PicturesLast(devices: seq<Listing>)
    requires devices != []
    ensures var d := devices[|devices| - 1];
      && Pictures(devices) == Pictures(devices[..|devices| - 1]) + [ClientDevice(d.id, Reversed(OptionIds(d)))]
      && |OptionIds(d)| == |Announcement(d)| - 1
  {
  }

  lemma EnumerationLast(devices: seq<Listing>, others: seq<nat>)
    requires devices != []
    ensures Enumeration(devices, others) ==
      Enumeration(devices[..|devices| - 1], others) + Announcement(devices[|devices| - 1])
  {
  }

  lemma {:induction false} OthersShow(s: seq<Message>)
    requires forall k :: 0 <= k < |s| ==> s[k].Other?
    ensures End([], s) == []
  {
    if s != [] { OthersShow(s[..|s| - 1]); }
  }

  /** The first `k` messages about one more device. */
  lemma {:induction false} AnnouncementShows(s: seq<Message>, devices: seq<Listing>, d: Listing, k: nat)
    requires End([], s) == Pictures(devices) && 1 <= k <= |Announcement(d)|
    requires forall i :: 0 <= i < |devices| ==> devices[i].id != d.id
    ensures End([], s + Announcement(d)[..k]) ==
      Pictures(devices) + [ClientDevice(d.id, Reversed(OptionIds(d)[..k - 1]))]
  {
    hide End, First;
    var news := Announcement(d);
    var view, m := Pictures(devices), news[k - 1];
    var before := s + news[..k - 1];
    assert s + news[..k] == before + [m];
    Queued([], before, m);
    if k == 1 {
      assert before == s && OptionIds(d)[..0] == [];
    } else {
      AnnouncementShows(s, devices, d, k - 1);
      var ids := OptionIds(d);
      var now := view + [ClientDevice(d.id, Reversed(ids[..k - 2]))];
      assert m == news[k - 2 + 1] == OptionAdd(d.id, d.options[k - 2].option, d.options[k - 2].len);
      assert ids[..k - 1] == ids[..k - 2] + [d.options[k - 2].option];
      ReversedMore(ids[..k - 2], d.options[k - 2].option);
      assert now[|view|].id == d.id;
      FirstIs(now, d.id, |view|);
    }
  }

  lemma PicturesShow(devices: seq<Listing>, shown: Shown)
    requires Tells(devices, shown)
    ensures Shows(Pictures(devices), shown)
  {
    hide First;
    var view := Pictures(devices);
    forall id | id in shown ensures Has(view, id) {
      var i :| 0 <= i < |devices| && devices[i].id == id;
      assert view[i].id == id;
    }
    forall i | 0 <= i < |view| ensures ShowsAt(view, shown, i) {
      forall k | 0 <= k < i ensures view[k].id != devices[i].id { assert devices[k].id != devices[i].id; }
      FirstIs(view, devices[i].id, i);
    }
  }

  /** A new client that is told everything shows what has been announced. */
  lemma NewcomerCurrent(c: Client, devices: seq<Listing>, others: seq<nat>, fails: nat -> bool, shown: Shown)
    requires Partial(c, Enumeration(devices, others), fails) && AllFit(Enumeration(devices, others))
    requires Tells(devices, shown)
    ensures Current(c, shown)
  {
    hide Enumeration, End, Shows, Pictures;
    if !c.remoteClosed {
      EnumerationShows(devices, others);
      PicturesShow(devices, shown);
      assert c.queue == Enumeration(devices, others);
    }
  }

  ghost predicate FitListing(d: Listing) {
    d.len <= MAX_PAYLOAD && forall k :: 0 <= k < |d.options| ==> d.options[k].len <= MAX_PAYLOAD
  }

  lemma {:induction false} EnumerationFits(devices: seq<Listing>, others: seq<nat>)
    requires forall i :: 0 <= i < |devices| ==> FitListing(devices[i])
    requires forall i :: 0 <= i < |others| ==> others[i] <= MAX_PAYLOAD
    ensures forall k :: 0 <= k < |Enumeration(devices, others)| ==> Fits(Enumeration(devices, others)[k])
    ensures Fitting(Enumeration(devices, others)) == Enumeration(devices, others)
  {
    hide Fitting;
    if devices != [] {
      var n := |devices| - 1;
      EnumerationFits(devices[..n], others);
      var news := Announcement(devices[n]);
      assert FitListing(devices[n]);
      forall k | 0 <= k < |news| ensures Fits(news[k]) { if k > 0 { assert news[k - 1 + 1].OptionAdd?; } }
    }
  }

  lemma {:induction false} EnumerationNames(devices: seq<Listing>, others: seq<nat>, i: nat)
    requires i < |devices|
    ensures Names(Enumeration(devices, others), devices[i].id)
  {
    var n := |devices| - 1;
    var before, news := Enumeration(devices[..n], others), Announcement(devices[n]);
    var all := Enumeration(devices, others);
    assert all == before + news;
    if i == n {
      assert all[|before|] == news[0];
    } else {
      EnumerationNames(devices[..n], others, i);
      var j :| 0 <= j < |before| && before[j].DeviceAdd? && before[j].id == devices[i].id;
      assert all[j] == before[j];
    }
  }

  // --- the loops of the enumeration ---

  /** `sent` of `all` has been sent so far, or the enumeration has stopped. */
  ghost predicate Sending(c: Client, going: bool, sent: seq<Message>, all: seq<Message>, fails: nat -> bool) {
    if going then c == Client(false, sent, []) && (forall k :: 0 <= k < |sent| ==> Fits(sent[k]))
      else Partial(c, all, fails)
  }

  method Send(c: Client, n: nat, m: Message, ghost sent: seq<Message>, ghost all: seq<Message>, fails: nat -> bool)
    returns (r: Client, going: bool)
    requires Sending(c, true, sent, all, fails) && sent + [m] <= all
    ensures Sending(r, going, sent + [m], all, fails)
  {
    r := Write(c, m, fails(n));
    going := Fits(m) && !fails(n);
    assert all[|sent|] == (sent + [m])[|sent|] == m;
  }

  /** One device of the enumeration: the device, then its options. */
  method SendListing(c: Client, n: nat, d: Listing, ghost sent: seq<Message>, ghost all: seq<Message>,
      fails: nat -> bool)
    returns (r: Client, next: nat, going: bool)
    requires Sending(c, true, sent, all, fails) && sent + Announcement(d) <= all
    ensures Sending(r, going, sent + Announcement(d), all, fails)
  {
    hide Sending;
    ghost var news := Announcement(d);
    PartOfAll(sent, news, 1, all);
    r, going := Send(c, n, DeviceAdd(d.id, d.len), sent, all, fails);
    assert sent + [DeviceAdd(d.id, d.len)] == sent + news[..1];
    next := n + 1;
    var k := 0;
    while k < |d.options| && going
      invariant 0 <= k <= |d.options| && Sending(r, going, sent + news[..k + 1], all, fails)
    {
      assert sent + news[..k + 2] == sent + news[..k + 1] + [OptionAdd(d.id, d.options[k].option, d.options[k].len)];
      PartOfAll(sent, news, k + 2, all);
      r, going := Send(r, next, OptionAdd(d.id, d.options[k].option, d.options[k].len), sent + news[..k + 1], all,
        fails);
      next := next + 1;
      k := k + 1;
    }
    if going { assert news[..k + 1] == news; }
    SendingStopped(r, going, sent + news[..k + 1], sent + news, all, fails);
  }

  lemma PartOfAll(sent: seq<Message>, news: seq<Message>, k: nat, all: seq<Message>)
    requires k <= |news| && sent + news <= all
    ensures sent + news[..k] <= all
    ensures k > 0 ==> sent + news[..k] == sent + news[..k - 1] + [news[k - 1]] && sent + news[..0] == sent
  {
    assert sent + news[..k] <= sent + news;
  }

  lemma SendingStopped(c: Client, going: bool, sent: seq<Message>, more: seq<Message>, all: seq<Message>,
      fails: nat -> bool)
    requires Sending(c, going, sent, all, fails) && (going ==> sent == more)
    ensures Sending(c, going, more, all, fails)
  {
  }

  lemma {:induction false} EnumerationSteps(devices: seq<Listing>, others: seq<nat>, i: nat)
    requires i < |devices|
    ensures Enumeration(devices[..i + 1], others) == Enumeration(devices[..i], others) + Announcement(devices[i])
    ensures Enumeration(devices[..i + 1], others) <= Enumeration(devices, others)
    decreases |devices| - i
  {
    assert devices[..i + 1][..i] == devices[..i];
    if i + 1 < |devices| {
      EnumerationSteps(devices, others, i + 1);
    } else {
      assert devices[..i + 1] == devices;
    }
  }

  lemma {:induction false} EnumerationStarts(devices: seq<Listing>, others: seq<nat>)
    ensures Others(others) <= Enumeration(devices, others)
  {
    if devices != [] { EnumerationStarts(devices[..|devices| - 1], others); }
  }

  /** Everything a new client is told. */
  method Enumerate(devices: seq<Listing>, others: seq<nat>, fails: nat -> bool) returns (c: Client)
    ensures Partial(c, Enumeration(devices, others), fails)
  {
    hide Enumeration, Sending;
    ghost var all, first := Enumeration(devices, others), Others(others);
    EnumerationStarts(devices, others);
    c := Client(false, [], []);
    var going: bool, n: nat := true, 0;
    SendingStart(all, fails);
    assert first[..0] == [];
    while n < |others| && going
      invariant 0 <= n <= |others| && Sending(c, going, first[..n], all, fails)
    {
      assert first[..n + 1] == first[..n] + [Other(others[n])];
      c, going := Send(c, n, Other(others[n]), first[..n], all, fails);
      n := n + 1;
    }
    if going { assert first[..n] == first; }
    EnumerationNone(devices, others);
    SendingStopped(c, going, first[..n], Enumeration(devices[..0], others), all, fails);
    var i := 0;
    while i < |devices| && going
      invariant 0 <= i <= |devices| && Sending(c, going, Enumeration(devices[..i], others), all, fails)
    {
      EnumerationSteps(devices, others, i);
      c, n, going := SendListing(c, n, devices[i], Enumeration(devices[..i], others), all, fails);
      i := i + 1;
    }
    if going { assert devices[..i] == devices; }
    SendingDone(c, going, Enumeration(devices[..i], others), all, fails);
  }

  lemma EnumerationNone(devices: seq<Listing>, others: seq<nat>)
    ensures Enumeration(devices[..0], others) == Others(others)
  {
  }

  lemma SendingStart(all: seq<Message>, fails: nat -> bool)
    ensures Sending(Client(false, [], []), true, [], all, fails)
  {
  }

  lemma SendingDone(c: Client, going: bool, sent: seq<Message>, all: seq<Message>, fails: nat -> bool)
    requires Sending(c, going, sent, all, fails) && (going ==> sent == all)
    ensures Partial(c, all, fails)
  {
  }

  // --- a run that goes wrong ---

  lemma FittingIs(s: seq<Message>, n: nat)
    requires n < |s| && !Fits(s[n]) && forall k :: 0 <= k < n ==> Fits(s[k])
    ensures Fitting(s) == s[..n]
  {
    hide Fitting;
  }

  lemma EnumerationTwo(a: Listing, b: Listing, others: seq<nat>)
    ensures Enumeration([a, b], others) == Others(others) + Announcement(a) + Announcement(b)
  {
    assert [a, b][..1] == [a] && [a][..0] == [];
    assert Enumeration([a], others) == Enumeration([], others) + Announcement(a);
  }

  lemma FittingPlays(devices: seq<Listing>, others: seq<nat>)
    ensures Plays([], Fitting(Enumeration(devices, others)))
  {
    hide Plays, Enumeration, Fitting;
    var all := Enumeration(devices, others);
    EnumerationPlays(devices, others);
    PlaysPart([], all, |Fitting(all)|);
    assert all[..|Fitting(all)|] == Fitting(all);
  }

  /** A new client is not told of `b` if an option of `a`, which comes first, does not fit. */
  lemma NotTold(a: string, b: string, big: nat, all: seq<Message>)
    requires a != b && big > MAX_PAYLOAD
    requires all == Enumeration([Listing(a, 20, [Item(0, big)]), Listing(b, 20, [Item(1, 20)])], [4, 4, 4])
    ensures Plays([], Fitting(all)) && !Has(End([], Fitting(all)), b)
  {
    var x, y := Listing(a, 20, [Item(0, big)]), Listing(b, 20, [Item(1, 20)]);
    hide Plays, End, Has, Enumeration, Fitting;
    FittingPlays([x, y], [4, 4, 4]);
    EnumerationTwo(x, y, [4, 4, 4]);
    var first := Others([4, 4, 4]);
    assert all[..3] == first && all[3] == DeviceAdd(a, 20) && all[4] == OptionAdd(a, 0, big);
    forall k | 0 <= k < 3 ensures all[k] == Other(4) { assert all[k] == first[k]; }
    FittingIs(all, 4);
    EndHas(Fitting(all), b);
  }

  /**
   A device is enumerated as soon as it is tracked, but announced with its first option only: a client that
   connects in between gets it twice, and is left with one of the two when the device is removed.
   */
  method RemovedDeviceStays(id: string) returns (server: DiscoverServer)
    requires |id| + 4 <= MAX_PAYLOAD
    ensures server.Valid() && server.complete && |server.clients| == 1 && !server.clients[0].remoteClosed
    ensures id !in server.known && Has(End(server.clients[0].view, server.clients[0].queue), id)
  {
    hide Enumeration, Fitting, Shows, AllInformed, AllCurrent;
    var never := (n: nat) => false;
    server := new DiscoverServer();
    TrackedOnly(id);
    server.Connect([Listing(id, 20, [])], [], never);
    server.Announce(id, 20, 0, 20, true, never, never);
    server.Broadcast(DeviceRemove(id), never, {});
    assert server.clients[0].queue ==
      [DeviceAdd(id, 20), DeviceAdd(id, 20), OptionAdd(id, 0, 20), DeviceRemove(id)];
    ListedTwice(id);
  }

  lemma TrackedOnly(id: string)
    ensures var s := Enumeration([Listing(id, 20, [])], []);
      && s == [DeviceAdd(id, 20)] && Fitting(s) == s && AllFit(s) && Covers(s, {})
      && Tells([Listing(id, 20, [])], map[])
  {
    var d := Listing(id, 20, []);
    assert [d][..0] == [] && Enumeration([], []) == Others([]) == [] && Announcement(d) == [DeviceAdd(id, 20)];
    assert Enumeration([d], []) == [] + [DeviceAdd(id, 20)];
    assert OptionIds(d) == [];
  }

  lemma {:induction false} ListedTwice(id: string)
    ensures Has(End([], [DeviceAdd(id, 20), DeviceAdd(id, 20), OptionAdd(id, 0, 20), DeviceRemove(id)]), id)
  {
    hide End, Handle, Has, First;
    var a, o, x := DeviceAdd(id, 20), OptionAdd(id, 0, 20), DeviceRemove(id);
    var empty, full := ClientDevice(id, []), ClientDevice(id, [0]);
    FirstAdded(id);
    FirstGiven(empty, id);
    FirstTaken(full, empty, id);
    FourQueued(a, a, o, x);
  }

  lemma {:induction false} FourQueued(a: Message, b: Message, c: Message, d: Message)
    ensures End([], [a, b, c, d]) == Handle(Handle(Handle(Handle([], a), b), c), d)
  {
    hide End, Handle;
    EndNone();
    Queued([], [], a);
    Queued([], [a], b);
    Queued([], [a, b], c);
    Queued([], [a, b, c], d);
    assert [] + [a] == [a] && [a] + [b] == [a, b] && [a, b] + [c] == [a, b, c] && [a, b, c] + [d] == [a, b, c, d];
  }

  lemma FirstAdded(id: string)
    ensures var empty := ClientDevice(id, []);
      && Handle([], DeviceAdd(id, 20)) == [empty] && Handle([empty], DeviceAdd(id, 20)) == [empty, empty]
      && Has([empty], id)
  {
    assert [ClientDevice(id, [])][0].id == id;
  }

  lemma FirstGiven(empty: ClientDevice, id: string)
    requires empty == ClientDevice(id, [])
    ensures Handle([empty, empty], OptionAdd(id, 0, 20)) == [ClientDevice(id, [0]), empty]
  {
    hide First;
    FirstIs([empty, empty], id, 0);
    assert [0] + empty.options == [0];
  }

  lemma FirstTaken(full: ClientDevice, empty: ClientDevice, id: string)
    requires full.id == id
    ensures Handle([full, empty], DeviceRemove(id)) == [empty]
  {
    hide First;
    FirstIs([full, empty], id, 0);
  }

  lemma EndNone()
    ensures End([], []) == []
  {
  }

  /** Two announced devices, a newcomer whose enumeration stops inside the first, and a new option of the second. */
  method OversizedOptionBreaksClient(a: string, b: string, big: nat) returns (server: DiscoverServer, ok: bool)
    requires a != b && big > MAX_PAYLOAD
    ensures !ok && server.failures == 1
  {
    hide Enumeration, Fitting, Plays, End, Has, Covers, Announced;
    var never := (n: nat) => false;
    server := new DiscoverServer();
    server.Announce(a, 20, 0, big, true, never, never);
    server.Announce(b, 20, 1, 20, true, never, never);
    server.Connect([Listing(a, 20, [Item(0, big)]), Listing(b, 20, [Item(1, 20)])], [4, 4, 4], never);
    ghost var all := Enumeration([Listing(a, 20, [Item(0, big)]), Listing(b, 20, [Item(1, 20)])], [4, 4, 4]);
    NotTold(a, b, big, all);
    AnnouncedIff(server.clients[0], b, 20, 2, 20, false);
    server.Announce(b, 20, 2, 20, false, never, never);
    ok := server.DeliverAll(0);
  }
}
