/**
 Devices and boot options in the handler (discover/device-handler.c): discovery commits
 options to a device or queues them until they can be resolved; devices are removed,
 requeried and dropped; clients are told; and the default option is one of those listed.
 */
module DeviceHandler {
  import opened Common
  import opened Autoboot
  import opened Notify

  datatype Resource = NoResource | Unresolved | Resolved

  /** `final`: `boot_option_finalise` has filled in the data that is sent to clients, in a message of length `len`. */
  datatype BootOption = BootOption(
    device: nat, isDefault: bool, hasImage: bool, resources: seq<Resource>, resolvable: bool, len: nat, final: bool)

  /** `len` is the length of the message that announces the device. */
  datatype Device = Device(id: string, info: DeviceInfo, len: nat, options: seq<nat>, notified: bool)

  /** The live devices and options; `tracked` and `queue` are the handler's array and its list of unresolved options. */
  datatype Books = Books(dev: map<nat, Device>, opt: map<nat, BootOption>, tracked: seq<nat>, queue: seq<nat>)

  predicate AllResolved(b: BootOption) {
    Unresolved !in b.resources
  }

  /** Devices differ in their ids and UUIDs. */
  ghost predicate Named(dev: map<nat, Device>) {
    forall d, e :: d in dev && e in dev && d != e ==> dev[d].id != dev[e].id && dev[d].info.uuid != dev[e].info.uuid
  }

  ghost predicate Listed(k: Books, d: nat)
    requires d in k.dev
  {
    && Distinct(k.dev[d].options)
    && (forall o :: o in k.dev[d].options ==>
      o in k.opt && k.opt[o].device == d && k.opt[o].final && AllResolved(k.opt[o]))
    && (d !in k.tracked ==> k.dev[d].options == [] && !k.dev[d].notified)
  }

  ghost predicate Waiting(k: Books, o: nat) {
    o in k.opt && !k.opt[o].final && k.opt[o].hasImage && k.opt[o].device in k.tracked && k.opt[o].resolvable
  }

  /** An option is in its device's list if it is final, and in the queue if it is not: in exactly one of them. */
  ghost predicate Placed(k: Books, o: nat)
    requires o in k.opt
  {
    if k.opt[o].final then k.opt[o].device in k.dev && o in k.dev[k.opt[o].device].options else o in k.queue
  }

  ghost predicate Kept(k: Books) {
    && Named(k.dev)
    && Distinct(k.tracked) && (forall d :: d in k.tracked ==> d in k.dev)
    && (forall d :: d in k.dev ==> Listed(k, d))
    && Distinct(k.queue) && (forall o :: o in k.queue ==> Waiting(k, o))
    && (forall o :: o in k.opt ==> Placed(k, o))
  }

  /** In exactly one place: nothing is lost and nothing is listed twice. */
  lemma ExactlyOnePlace(k: Books, o: nat)
    requires Kept(k) && o in k.opt
    ensures k.opt[o].device in k.dev
    ensures o in k.queue <==> o !in k.dev[k.opt[o].device].options
    ensures forall d :: d in k.dev && d != k.opt[o].device ==> o !in k.dev[d].options
    ensures Distinct(k.queue) && Distinct(k.dev[k.opt[o].device].options)
  {
  }

  // --- changes to the books ---

  lemma SameNames(dev: map<nat, Device>, after: map<nat, Device>)
    requires Named(dev) && after.Keys <= dev.Keys
    requires forall d :: d in after ==> after[d].id == dev[d].id && after[d].info == dev[d].info
    ensures Named(after)
  {
  }

  lemma NoneTwice()
    ensures Distinct([])
  {
  }

  function Track(k: Books, d: nat): (r: Books) {
    if d in k.tracked then k else k.(tracked := k.tracked + [d])
  }

  lemma TrackKept(k: Books, d: nat)
    requires Kept(k) && d in k.dev
    ensures Kept(Track(k, d))
  {
    var r := Track(k, d);
    forall e | e in r.dev ensures Listed(r, e) { assert Listed(k, e); }
    forall o | o in r.opt ensures Placed(r, o) { assert Placed(k, o); }
    forall o | o in r.queue ensures Waiting(r, o) { assert Waiting(k, o); }
  }

  /** A resolved option joins the list of its device, for good. */
  function List(k: Books, o: nat, b: BootOption): (r: Books)
    requires b.device in k.dev
  {
    var d := k.dev[b.device];
    k.(dev := k.dev[b.device := d.(options := d.options + [o])], opt := k.opt[o := b.(final := true)])
  }

  lemma ListKept(k: Books, o: nat, b: BootOption)
    requires Kept(k) && o !in k.opt && b.device in k.tracked && AllResolved(b)
    ensures b.device in k.dev && Kept(List(k, o, b))
  {
    hide Named, AllResolved;
    var r := List(k, o, b);
    SameNames(k.dev, r.dev);
    forall e | e in r.dev ensures Listed(r, e) { ListedMore(k, o, b, e); }
    forall p | p in r.opt ensures Placed(r, p) { if p != o { assert Placed(k, p); } }
    forall p | p in r.queue ensures Waiting(r, p) { assert Waiting(k, p); }
  }

  lemma ListedMore(k: Books, o: nat, b: BootOption, e: nat)
    requires o !in k.opt && b.device in k.tracked && b.device in k.dev && AllResolved(b) && e in k.dev && Listed(k, e)
    ensures Listed(List(k, o, b), e)
  {
    assert o !in k.dev[e].options;
  }

  function Enqueue(k: Books, o: nat, b: BootOption): (r: Books) {
    k.(queue := [o] + k.queue, opt := k.opt[o := b])
  }

  lemma EnqueueKept(k: Books, o: nat, b: BootOption)
    requires Kept(k) && o !in k.opt && b.device in k.tracked && !b.final && b.hasImage && b.resolvable
    ensures Kept(Enqueue(k, o, b))
  {
    var r := Enqueue(k, o, b);
    assert o !in k.queue;
    forall e | e in r.dev ensures Listed(r, e) { assert Listed(k, e); }
    forall p | p in r.opt ensures Placed(r, p) { if p != o { assert Placed(k, p); } }
    forall p | p in r.queue ensures Waiting(r, p) { if p != o { assert Waiting(k, p); } }
  }

  function Outside(s: seq<nat>, gone: set<nat>): (r: seq<nat>)
    ensures forall x :: x in r <==> x in s && x !in gone
    ensures Distinct(s) ==> Distinct(r)
    ensures |r| <= |s|
  {
    if s == [] then [] else
      var rest := Outside(s[1..], gone);
      assert forall x :: x in s <==> x == s[0] || x in s[1..];
      assert Distinct(s) ==> s[0] !in s[1..] && Distinct(s[1..]) by {
        if Distinct(s) { assert forall i :: 0 <= i < |s| - 1 ==> s[1..][i] == s[i + 1]; }
      }
      if s[0] in gone then rest else [s[0]] + rest
  }

  /** An option leaves the queue. */
  function Dequeue(k: Books, o: nat): (r: Books) {
    k.(opt := k.opt - {o}, queue := Outside(k.queue, {o}))
  }

  lemma DequeueKept(k: Books, o: nat)
    requires Kept(k) && o in k.queue
    ensures Kept(Dequeue(k, o))
  {
    var r := Dequeue(k, o);
    assert Waiting(k, o);
    forall e | e in r.dev ensures Listed(r, e) { assert Listed(k, e); }
    forall p | p in r.opt ensures Placed(r, p) { assert Placed(k, p); }
    forall p | p in r.queue ensures Waiting(r, p) { assert Waiting(k, p); }
  }

  /** Some resources of a queued option have been resolved. */
  lemma ProgressKept(k: Books, o: nat, resources: seq<Resource>)
    requires Kept(k) && o in k.queue && o in k.opt
    ensures Kept(k.(opt := k.opt[o := k.opt[o].(resources := resources)]))
  {
    var r := k.(opt := k.opt[o := k.opt[o].(resources := resources)]);
    assert Waiting(k, o);
    forall e | e in r.dev ensures Listed(r, e) { assert Listed(k, e); }
    forall p | p in r.opt ensures Placed(r, p) { assert Placed(k, p); }
    forall p | p in r.queue ensures Waiting(r, p) { assert Waiting(k, p); }
  }

  function OptionsOf(k: Books, d: nat): (r: set<nat>) {
    set o | o in k.opt && k.opt[o].device == d
  }

  /** All options of a device are freed. */
  function Cleared(k: Books, d: nat): (r: Books)
    requires d in k.dev
  {
    Books(k.dev[d := k.dev[d].(options := [])], k.opt - OptionsOf(k, d), k.tracked, Outside(k.queue, OptionsOf(k, d)))
  }

  lemma ClearedOptions(k: Books, d: nat, p: nat)
    requires Kept(k) && d in k.dev && p in k.opt && k.opt[p].device != d
    ensures Placed(Cleared(k, d), p)
    ensures p in k.queue ==> Waiting(Cleared(k, d), p)
  {
    hide Named, Distinct, Listed, Outside;
    assert Placed(k, p);
    if p in k.queue { assert Waiting(k, p); }
  }

  lemma ClearedListed(k: Books, d: nat, e: nat)
    requires Kept(k) && d in k.dev && e in Cleared(k, d).dev
    ensures Listed(Cleared(k, d), e)
  {
    hide Named, Distinct, Placed, Waiting, Outside;
    NoneTwice();
    assert Listed(k, e);
  }

  lemma ClearedKept(k: Books, d: nat)
    requires Kept(k) && d in k.dev
    ensures Kept(Cleared(k, d))
  {
    hide Named, Distinct, Listed, Placed, Outside;
    var r := Cleared(k, d);
    SameNames(k.dev, r.dev);
    forall e | e in r.dev ensures Listed(r, e) { ClearedListed(k, d, e); }
    forall p | p in r.opt ensures Placed(r, p) { ClearedOptions(k, d, p); }
    forall p | p in r.queue ensures Waiting(r, p) { assert Waiting(k, p); ClearedOptions(k, d, p); }
  }

  /** A device goes away, and its options with it. */
  function Gone(k: Books, d: nat): (r: Books) {
    Books(k.dev - {d}, k.opt - OptionsOf(k, d), Outside(k.tracked, {d}), Outside(k.queue, OptionsOf(k, d)))
  }

  lemma GoneOptions(k: Books, d: nat, p: nat)
    requires Kept(k) && p in k.opt && k.opt[p].device != d
    ensures Placed(Gone(k, d), p)
    ensures p in k.queue ==> Waiting(Gone(k, d), p)
  {
    hide Named, Distinct, Listed, Outside;
    assert Placed(k, p);
    if p in k.queue { assert Waiting(k, p); }
  }

  lemma GoneListed(k: Books, d: nat, e: nat)
    requires Kept(k) && e in Gone(k, d).dev
    ensures Listed(Gone(k, d), e)
  {
    hide Named, Distinct, Placed, Waiting, Outside;
    NoneTwice();
    assert Listed(k, e);
  }

  lemma GoneKept(k: Books, d: nat)
    requires Kept(k)
    ensures Kept(Gone(k, d))
  {
    hide Named, Distinct, Listed, Placed, Outside;
    var r := Gone(k, d);
    SameNames(k.dev, r.dev);
    forall e | e in r.dev ensures Listed(r, e) { GoneListed(k, d, e); }
    forall p | p in r.opt ensures Placed(r, p) { GoneOptions(k, d, p); }
    forall p | p in r.queue ensures Waiting(r, p) { assert Waiting(k, p); GoneOptions(k, d, p); }
  }

  function Notified(k: Books, d: nat, notified: bool): (r: Books)
    requires d in k.dev
  {
    k.(dev := k.dev[d := k.dev[d].(notified := notified)])
  }

  lemma NotifiedKept(k: Books, d: nat, notified: bool)
    requires Kept(k) && d in k.dev && (notified ==> d in k.tracked)
    ensures Kept(Notified(k, d, notified))
  {
    var r := Notified(k, d, notified);
    forall e | e in r.dev ensures Listed(r, e) { assert Listed(k, e); }
    forall p | p in r.opt ensures Placed(r, p) { assert Placed(k, p); }
    forall p | p in r.queue ensures Waiting(r, p) { assert Waiting(k, p); }
  }

  /** A device keeps its place, but has neither options nor an audience. */
  function Silenced(k: Books, d: nat): (r: Books)
    requires d in k.dev
  {
    k.(dev := k.dev[d := k.dev[d].(options := [], notified := false)],
       opt := k.opt - OptionsOf(k, d), queue := Outside(k.queue, OptionsOf(k, d)))
  }

  lemma SilencedKept(k: Books, d: nat)
    requires Kept(k) && d in k.dev
    ensures Kept(Silenced(k, d))
  {
    hide Kept;
    ClearedKept(k, d);
    NotifiedKept(Cleared(k, d), d, false);
    assert Silenced(k, d) == Notified(Cleared(k, d), d, false);
  }

  // --- the handler ---

  /**
   What the outside does while an option is handled: which resources its parser can resolve now, how
   a boot starts, which writes fail.
   */
  datatype Env = Env(works: nat -> bool, start: BootStart, failsDevice: nat -> bool, failsOption: nat -> bool)

  /** What announces the devices fits into messages, and so does what announces the options. */
  ghost predicate FitDevices(dev: map<nat, Device>) {
    forall d :: d in dev ==> Fits(DeviceAdd(dev[d].id, dev[d].len)) && Fits(DeviceRemove(dev[d].id))
  }

  ghost predicate FitOptions(opt: map<nat, BootOption>) {
    forall o :: o in opt ==> opt[o].len <= MAX_PAYLOAD
  }

  /** The devices, and what their clients can rely on. */
  datatype Relay = Relay(dev: map<nat, Device>, intact: bool, complete: bool, failures: nat)

  /** As long as all devices fit, they go on to, and clients stay informed, completely if the options fit too. */
  ghost predicate Steady(a: Relay, b: Relay, fit: bool) {
    && b.failures == a.failures
    && (FitDevices(a.dev) ==> FitDevices(b.dev) && b.intact == a.intact && (fit ==> b.complete == a.complete))
  }

  /** Every resource that is open can be resolved. */
  ghost predicate Resolvable(b: BootOption, works: nat -> bool) {
    forall i :: 0 <= i < |b.resources| && b.resources[i] == Unresolved ==> works(i)
  }

  ghost predicate FitParsed(options: seq<nat>, parsed: map<nat, BootOption>) {
    forall o :: o in options && o in parsed ==> parsed[o].len <= MAX_PAYLOAD
  }

  lemma SteadyStart(a: Relay, fit: bool)
    ensures Steady(a, a, fit)
  {
  }

  lemma SteadyOn(a: Relay, b: Relay, c: Relay, fit: bool, fits: bool)
    requires Steady(a, b, fit) && Steady(b, c, fits) && (fit ==> fits)
    ensures Steady(a, c, fit)
  {
  }

  /** The first `n` of the options have been committed: those with an image live, final exactly if they resolved. */
  ghost predicate Committed(opt0: map<nat, BootOption>, opt: map<nat, BootOption>, options: seq<nat>,
                            parsed: map<nat, BootOption>, envs: nat -> Env, n: nat)
  {
    && n <= |options| && (forall j :: 0 <= j < |options| ==> options[j] in parsed)
    && (forall p :: p in opt <==> p in opt0 || (p in options[..n] && parsed[p].hasImage))
    && (forall p :: p in opt0 && p in opt ==> opt[p] == opt0[p])
    && (forall j :: 0 <= j < n && options[j] in opt && options[j] !in opt0 ==>
          && (opt[options[j]].final <==> Resolvable(parsed[options[j]], envs(j).works))
          && opt[options[j]].len == parsed[options[j]].len)
  }

  lemma CommittedNone(opt: map<nat, BootOption>, options: seq<nat>, parsed: map<nat, BootOption>, envs: nat -> Env)
    requires forall j :: 0 <= j < |options| ==> options[j] in parsed
    ensures Committed(opt, opt, options, parsed, envs, 0)
  {
  }

  lemma CommittedNext(opt0: map<nat, BootOption>, opt: map<nat, BootOption>, options: seq<nat>,
                      parsed: map<nat, BootOption>, envs: nat -> Env, n: nat)
    requires Committed(opt0, opt, options, parsed, envs, n) && n < |options| && Distinct(options)
    ensures options[n] in parsed && (options[n] !in opt0 ==> options[n] !in opt)
  {
  }

  lemma CommittedStep(opt0: map<nat, BootOption>, opt1: map<nat, BootOption>, opt2: map<nat, BootOption>,
      options: seq<nat>, parsed: map<nat, BootOption>, envs: nat -> Env, n: nat)
    requires Committed(opt0, opt1, options, parsed, envs, n) && n < |options| && Distinct(options)
      && options[n] !in opt0
    requires options[n] in parsed && (!parsed[options[n]].hasImage ==> opt2 == opt1)
    requires parsed[options[n]].hasImage ==>
      && (forall p :: p in opt2 <==> p in opt1 || p == options[n])
      && (opt2[options[n]].final <==> Resolvable(parsed[options[n]], envs(n).works))
      && opt2[options[n]].len == parsed[options[n]].len
    requires forall p :: p in opt1 ==> p in opt2 && opt2[p] == opt1[p]
    ensures Committed(opt0, opt2, options, parsed, envs, n + 1)
  {
    hide Resolvable;
    assert options[..n + 1] == options[..n] + [options[n]];
  }

  /** The first `n` options of the queue have been retried: exactly those that resolved are final and have left it. */
  ghost predicate Processed(opt0: map<nat, BootOption>, opt: map<nat, BootOption>, q: seq<nat>, queue: seq<nat>,
      envs: nat -> Env, n: nat) {
    && n <= |q| && opt.Keys == opt0.Keys && (forall j :: 0 <= j < |q| ==> q[j] in opt0)
    && (forall p :: p in opt && p !in q ==> opt[p] == opt0[p])
    && (forall p :: p in opt ==> opt[p].len == opt0[p].len)
    && (forall j :: 0 <= j < n ==> Settled(opt0[q[j]], opt[q[j]], q[j], queue, envs(j)))
    && (forall j :: n <= j < |q| ==> q[j] in queue && opt[q[j]] == opt0[q[j]])
  }

  ghost predicate Settled(before: BootOption, after: BootOption, o: nat, queue: seq<nat>, env: Env) {
    (after.final <==> Resolvable(before, env.works)) && (after.final <==> o !in queue)
  }

  lemma ProcessedNone(opt: map<nat, BootOption>, q: seq<nat>, envs: nat -> Env)
    requires forall o :: o in q ==> o in opt
    ensures Processed(opt, opt, q, q, envs, 0)
  {
  }

  lemma ProcessedNext(opt0: map<nat, BootOption>, opt: map<nat, BootOption>, q: seq<nat>, queue: seq<nat>,
      envs: nat -> Env, n: nat)
    requires Processed(opt0, opt, q, queue, envs, n) && n < |q| && Distinct(q)
    ensures q[n] in queue && q[n] in opt && q[n] in opt0 && opt[q[n]] == opt0[q[n]]
  {
  }

  lemma ProcessedStep(opt0: map<nat, BootOption>, opt1: map<nat, BootOption>, opt2: map<nat, BootOption>, q: seq<nat>,
                      queue1: seq<nat>, queue2: seq<nat>, envs: nat -> Env, n: nat)
    requires Processed(opt0, opt1, q, queue1, envs, n) && n < |q| && Distinct(q)
    requires opt2.Keys == opt1.Keys && q[n] in opt1 && (forall p :: p in opt2 && p != q[n] ==> opt2[p] == opt1[p])
    requires forall x :: x != q[n] ==> (x in queue2 <==> x in queue1)
    requires opt2[q[n]].final <==> q[n] !in queue2
    requires (opt2[q[n]].final <==> Resolvable(opt1[q[n]], envs(n).works)) && opt2[q[n]].len == opt1[q[n]].len
    ensures Processed(opt0, opt2, q, queue2, envs, n + 1)
  {
    hide Resolvable;
    forall j | 0 <= j < n + 1 ensures Settled(opt0[q[j]], opt2[q[j]], q[j], queue2, envs(j)) {
      if j < n { assert q[j] != q[n] && Settled(opt0[q[j]], opt1[q[j]], q[j], queue1, envs(j)); }
    }
    forall j | n + 1 <= j < |q| ensures q[j] in queue2 && opt2[q[j]] == opt0[q[j]] { assert q[n] != q[j]; }
  }

  lemma CommittedFits(opt0: map<nat, BootOption>, opt: map<nat, BootOption>, options: seq<nat>,
      parsed: map<nat, BootOption>, envs: nat -> Env)
    requires Committed(opt0, opt, options, parsed, envs, |options|) && FitOptions(opt0)
    requires forall o :: o in options && o in parsed ==> parsed[o].len <= MAX_PAYLOAD
    ensures FitOptions(opt)
  {
    forall p | p in opt ensures opt[p].len <= MAX_PAYLOAD {
      if p !in opt0 {
        assert options[..|options|] == options;
        var j :| 0 <= j < |options| && options[j] == p;
      }
    }
  }

  lemma ProcessedFits(opt0: map<nat, BootOption>, opt: map<nat, BootOption>, q: seq<nat>, queue: seq<nat>,
      envs: nat -> Env)
    requires Processed(opt0, opt, q, queue, envs, |q|) && FitOptions(opt0)
    ensures FitOptions(opt)
  {
  }

  lemma CreatedFits(dev: map<nat, Device>, d: nat, id: string, info: DeviceInfo, len: nat)
    requires FitDevices(dev) && Fits(DeviceAdd(id, len)) && Fits(DeviceRemove(id))
    ensures FitDevices(dev[d := Device(id, info, len, [], false)])
  {
  }

  lemma NoneFit()
    ensures FitOptions(map[])
  {
  }

  lemma ListedFits(dev0: map<nat, Device>, dev1: map<nat, Device>, dev2: map<nat, Device>, d: nat, o: nat)
    requires d in dev0 && dev1 == dev0[d := dev0[d].(options := dev0[d].options + [o])]
    requires dev2 == dev1[d := dev1[d].(notified := true)]
    ensures FitDevices(dev0) ==> FitDevices(dev2) && Announceable(dev0[d])
  {
  }

  lemma FewerFit(k: Books, d: nat)
    requires d in k.dev && FitDevices(k.dev)
    ensures FitDevices(Gone(k, d).dev) && FitDevices(Silenced(k, d).dev)
    ensures FitOptions(k.opt) ==> FitOptions(Gone(k, d).opt) && FitOptions(Silenced(k, d).opt)
  {
  }

  /** A device that is still to be announced fits into a message. */
  ghost predicate Announceable(d: Device) {
    !d.notified ==> Fits(DeviceAdd(d.id, d.len))
  }

  ghost function NewsOf(d: Device): (m: Message) {
    DeviceAdd(d.id, d.len)
  }

  ghost function NewsOfOption(d: Device, o: nat, len: nat): (m: Message) {
    OptionAdd(d.id, o, len)
  }

  /** Every client has been sent the announcement of the option, and of its device if that is new. */
  ghost predicate Heard(before: seq<Client>, after: seq<Client>, m: Message, n: Message, first: bool, env: Env)
    requires m.DeviceAdd? && n.OptionAdd?
  {
    |after| == |before| && forall i :: 0 <= i < |after| ==>
      after[i] == Announced(before[i], m.id, m.len, n.option, n.len, first, env.failsDevice(i), env.failsOption(i))
  }

  /** Every client has been sent the removal of the device, if `notify` says so. */
  ghost predicate Withdrawn(before: seq<Client>, after: seq<Client>, id: string, notify: bool, fails: nat -> bool) {
    && |after| == |before|
    && forall i :: 0 <= i < |after| ==>
      after[i] == if notify then Write(before[i], DeviceRemove(id), fails(i)) else before[i]
  }

  ghost function Known(dev: map<nat, Device>): (r: set<string>) {
    set d | d in dev && dev[d].notified :: dev[d].id
  }

  /** What has been announced is what the devices list; a device that is not announced lists nothing. */
  ghost predicate Mirrored(dev: map<nat, Device>, shown: Shown) {
    forall d :: d in dev ==> MirroredAt(dev[d], shown)
  }

  ghost predicate MirroredAt(d: Device, shown: Shown) {
    if d.notified then d.id in shown && shown[d.id] == d.options else d.options == []
  }

  /** The same, but for the option `o` that device `d` has just been given. */
  ghost predicate Behind(dev: map<nat, Device>, shown: Shown, d: nat, o: nat) {
    && d in dev && |dev[d].options| > 0
    && MirroredAt(dev[d].(options := dev[d].options[..|dev[d].options| - 1]), shown)
    && dev[d].options[|dev[d].options| - 1] == o
    && forall e :: e in dev && e != d ==> MirroredAt(dev[e], shown)
  }

  lemma ListedBehind(dev: map<nat, Device>, shown: Shown, d: nat, o: nat)
    requires Mirrored(dev, shown) && d in dev
    ensures Behind(dev[d := dev[d].(options := dev[d].options + [o])], shown, d, o)
  {
    assert (dev[d].options + [o])[..|dev[d].options|] == dev[d].options;
    assert dev[d].(options := dev[d].options) == dev[d];
  }

  lemma CaughtUp(dev: map<nat, Device>, shown: Shown, d: nat, o: nat, len: nat)
    requires Behind(dev, shown, d, o) && Named(dev) && shown.Keys == Known(dev)
    ensures var id := dev[d].id;
      Mirrored(dev[d := dev[d].(notified := true)],
        Updated(if dev[d].notified then shown else shown[id := []], OptionAdd(id, o, len)))
  {
    var id, n := dev[d].id, |dev[d].options| - 1;
    var now := Updated(if dev[d].notified then shown else shown[id := []], OptionAdd(id, o, len));
    assert dev[d].options == dev[d].options[..n] + [o];
    forall e | e in dev && e != d ensures MirroredAt(dev[e], now) { assert dev[e].id != id; }
  }

  lemma RemovedMirrored(dev: map<nat, Device>, shown: Shown, d: nat)
    requires Mirrored(dev, shown) && Named(dev) && d in dev
    ensures Mirrored(dev - {d}, shown - {dev[d].id})
    ensures !dev[d].notified ==> Mirrored(dev - {d}, shown)
    ensures Mirrored(dev[d := dev[d].(options := [], notified := false)], shown - {dev[d].id})
  {
    forall e | e in dev && e != d ensures MirroredAt(dev[e], shown - {dev[d].id}) {
      assert dev[e].id != dev[d].id && MirroredAt(dev[e], shown);
    }
  }

  /** The default option is listed with a tracked device. */
  ghost predicate DefaultListed(default: Option<Candidate>, k: Books) {
    default.Some? ==>
      var o := default.value.option;
      o in k.opt && k.opt[o].final && k.opt[o].device in k.dev && k.dev[k.opt[o].device].info == default.value.device
  }

  /** A resource is left to resolve, but the parser has no function for it: the call goes through a null pointer. */
  predicate Helpless(b: BootOption) {
    !b.resolvable && !AllResolved(b)
  }

  /** Committing the option crashes. */
  predicate Crashes(b: BootOption) {
    b.hasImage && Helpless(b)
  }

  /** The first option that crashes is the one at `n`; there is none if that is the end. */
  ghost predicate CrashedAt(options: seq<nat>, parsed: map<nat, BootOption>, n: nat) {
    && (forall j :: 0 <= j < |options| ==> options[j] in parsed) && n <= |options|
    && (forall j :: 0 <= j < n ==> !Crashes(parsed[options[j]]))
    && (n < |options| ==> Crashes(parsed[options[n]]))
  }

  ghost predicate CrashFree(options: seq<nat>, parsed: map<nat, BootOption>, n: nat) {
    && (forall j :: 0 <= j < |options| ==> options[j] in parsed) && n <= |options|
    && (forall j :: 0 <= j < n ==> !Crashes(parsed[options[j]]))
  }

  lemma CrashFreeYet(options: seq<nat>, parsed: map<nat, BootOption>)
    requires forall j :: 0 <= j < |options| ==> options[j] in parsed
    ensures CrashFree(options, parsed, 0)
  {
  }

  lemma CrashedNowhere(options: seq<nat>, parsed: map<nat, BootOption>)
    requires CrashFree(options, parsed, |options|)
    ensures CrashedAt(options, parsed, |options|)
  {
    hide Crashes;
  }

  lemma ParsedAt(options: seq<nat>, parsed: map<nat, BootOption>, n: nat)
    requires n < |options| && CrashFree(options, parsed, n)
    ensures FitParsed(options, parsed) ==> parsed[options[n]].len <= MAX_PAYLOAD
    ensures if Crashes(parsed[options[n]]) then CrashedAt(options, parsed, n) else CrashFree(options, parsed, n + 1)
  {
    hide Crashes;
  }

  /** `boot_option_resolve`: try the resources in turn, up to the first that cannot be resolved. */
  method Resolve(b: BootOption, works: nat -> bool) returns (crashed: bool, ok: bool, r: BootOption)
    ensures crashed <==> Helpless(b)
    ensures r == b.(resources := r.resources) && |r.resources| == |b.resources|
    ensures ok ==> AllResolved(r) && !crashed
    ensures !crashed ==> (ok <==> AllResolved(r)) && (ok <==> Resolvable(b, works))
  {
    r := b;
    var i := 0;
    while i < |b.resources|
      invariant 0 <= i <= |b.resources| == |r.resources| && r == b.(resources := r.resources)
      invariant forall j :: 0 <= j < i ==> r.resources[j] != Unresolved && (b.resources[j] == Unresolved ==> works(j))
      invariant forall j :: i <= j < |r.resources| ==> r.resources[j] == b.resources[j]
      invariant !b.resolvable ==> forall j :: 0 <= j < i ==> b.resources[j] != Unresolved
    {
      if r.resources[i] == Unresolved {
        if !b.resolvable {
          return true, false, r;
        }
        if !works(i) {
          return false, false, r;
        }
        r := r.(resources := r.resources[i := Resolved]);
      }
      i := i + 1;
    }
    return false, true, r;
  }

  // --- what the default is chosen from ---

  /** An option that is marked as default is presented when it is finalised, and no other is. */
  ghost function Offered(a: Standing, b: BootOption, o: nat, info: DeviceInfo, start: BootStart): (r: Standing) {
    if b.isDefault then Present(a, Presentation(Candidate(o, info), start)) else a
  }

  /** An option that is finalised if it is handled now, and marked as default. */
  ghost predicate Marked(b: BootOption, env: Env) {
    b.hasImage && b.isDefault && Resolvable(b, env.works)
  }

  /** The options presented while the first `n` are committed. */
  ghost function CommitOffers(options: seq<nat>, parsed: map<nat, BootOption>, envs: nat -> Env, info: DeviceInfo,
      n: nat): (r: seq<Presentation>)
    requires n <= |options| && forall j :: 0 <= j < |options| ==> options[j] in parsed
  {
    if n == 0 then []
    else
      var o := options[n - 1];
      CommitOffers(options, parsed, envs, info, n - 1)
        + if Marked(parsed[o], envs(n - 1)) then [Presentation(Candidate(o, info), envs(n - 1).start)] else []
  }

  /** The options presented while the first `n` of the queue are tried again. */
  ghost function QueueOffers(q: seq<nat>, opt: map<nat, BootOption>, dev: map<nat, Device>, envs: nat -> Env, n: nat):
      (r: seq<Presentation>)
    requires n <= |q| && forall j :: 0 <= j < |q| ==> q[j] in opt && opt[q[j]].device in dev
  {
    if n == 0 then []
    else
      var o := q[n - 1];
      QueueOffers(q, opt, dev, envs, n - 1)
        + if Marked(opt[o], envs(n - 1)) then [Presentation(Candidate(o, dev[opt[o].device].info), envs(n - 1).start)]
          else []
  }

  lemma CommitOffersMore(a: Standing, options: seq<nat>, parsed: map<nat, BootOption>, envs: nat -> Env,
      info: DeviceInfo, n: nat)
    requires n < |options| && forall j :: 0 <= j < |options| ==> options[j] in parsed
    ensures var b := PresentAll(a, CommitOffers(options, parsed, envs, info, n));
      PresentAll(a, CommitOffers(options, parsed, envs, info, n + 1)) ==
        if Marked(parsed[options[n]], envs(n)) then Offered(b, parsed[options[n]], options[n], info, envs(n).start)
          else b
  {
    hide PresentAll, Present;
    var s, x := CommitOffers(options, parsed, envs, info, n), Presentation(Candidate(options[n], info), envs(n).start);
    PresentMore(a, s, x);
    assert s + [] == s;
  }

  lemma QueueOffersMore(a: Standing, q: seq<nat>, opt: map<nat, BootOption>, dev: map<nat, Device>, envs: nat -> Env,
      n: nat)
    requires n < |q| && forall j :: 0 <= j < |q| ==> q[j] in opt && opt[q[j]].device in dev
    ensures var b := PresentAll(a, QueueOffers(q, opt, dev, envs, n));
      PresentAll(a, QueueOffers(q, opt, dev, envs, n + 1)) ==
        if Marked(opt[q[n]], envs(n)) then Offered(b, opt[q[n]], q[n], dev[opt[q[n]].device].info, envs(n).start) else b
  {
    hide PresentAll, Present;
    var s := QueueOffers(q, opt, dev, envs, n);
    PresentMore(a, s, Presentation(Candidate(q[n], dev[opt[q[n]].device].info), envs(n).start));
    assert s + [] == s;
  }

  lemma CommitOffersNone(a: Standing, options: seq<nat>, parsed: map<nat, BootOption>, envs: nat -> Env,
      info: DeviceInfo)
    requires forall j :: 0 <= j < |options| ==> options[j] in parsed
    ensures PresentAll(a, CommitOffers(options, parsed, envs, info, 0)) == a
  {
  }

  lemma QueueOffersNone(a: Standing, q: seq<nat>, opt: map<nat, BootOption>, dev: map<nat, Device>, envs: nat -> Env)
    requires forall j :: 0 <= j < |q| ==> q[j] in opt && opt[q[j]].device in dev
    ensures PresentAll(a, QueueOffers(q, opt, dev, envs, 0)) == a
  {
  }

  lemma SameInfoStart(dev: map<nat, Device>, d: nat)
    ensures SameInfo(dev, dev)
  {
  }

  lemma SameInfoOn(dev0: map<nat, Device>, dev1: map<nat, Device>, dev2: map<nat, Device>, d: nat)
    requires SameInfo(dev0, dev1) && SameInfo(dev1, dev2)
    ensures SameInfo(dev0, dev2) && (d in dev0 ==> d in dev1 && dev1[d].info == dev0[d].info)
  {
  }

  /** Whatever waits in the queue is there, and so is its device. */
  ghost predicate QueueThere(k: Books) {
    forall j :: 0 <= j < |k.queue| ==> k.queue[j] in k.opt && k.opt[k.queue[j]].device in k.dev
  }

  lemma QueueKnown(k: Books)
    requires Kept(k)
    ensures QueueThere(k)
  {
    hide Named, Distinct, Listed, Placed;
    forall j | 0 <= j < |k.queue| ensures k.queue[j] in k.opt && k.opt[k.queue[j]].device in k.dev {
      assert Waiting(k, k.queue[j]);
    }
  }

  /** Devices stay what they are. */
  ghost predicate SameInfo(dev0: map<nat, Device>, dev1: map<nat, Device>) {
    dev0.Keys == dev1.Keys && forall d :: d in dev0 ==> dev1[d].info == dev0[d].info
  }

  datatype Mode = Mode(calm: bool, enabled: bool, attempts: seq<Attempt>)

  ghost predicate SameMode(a: Mode, b: Mode) {
    b.calm == a.calm && b.enabled == a.enabled && (!a.enabled ==> b.attempts == a.attempts)
  }

  lemma SameModeStart(a: Mode)
    ensures SameMode(a, a)
  {
  }

  lemma SameModeOn(a: Mode, b: Mode, c: Mode)
    requires SameMode(a, b) && SameMode(b, c)
    ensures SameMode(a, c)
  {
  }

  datatype Step =
    | Create(d: nat, id: string, info: DeviceInfo, len: nat)
    | Discover(d: nat, options: seq<nat>, parsed: map<nat, BootOption>, envs: nat -> Env)
    | Retry(envs: nat -> Env)
    | Unplug(d: nat, fails: nat -> bool)
    | Rescan(d: nat, fails: nat -> bool)
    | Restart(config: Config, failures: nat -> (nat -> bool))
    | Prefer(option: AutobootOption, starts: nat -> BootStart)
    | Autoboots(event: Event)
    | Joins(others: seq<nat>, fails: nat -> bool)
    | Leaves(client: nat)
    | Reads(client: nat)

  /** A parser without a resolver delivers an option that it did not resolve. */
  ghost predicate StepCrashes(step: Step) {
    step.Discover? && exists j ::
      0 <= j < |step.options| && step.options[j] in step.parsed && Crashes(step.parsed[step.options[j]])
  }

  /** What the step brings in fits into messages: a device, options, or what a new client is sent besides. */
  ghost predicate StepFits(step: Step) {
    match step
    case Create(_, id, _, len) => Fits(DeviceAdd(id, len)) && Fits(DeviceRemove(id))
    case Discover(_, options, parsed, _) => forall o :: o in options && o in parsed ==> parsed[o].len <= MAX_PAYLOAD
    case Joins(others, _) => forall k :: 0 <= k < |others| ==> others[k] <= MAX_PAYLOAD
    case _ => true
  }

  class DeviceHandler {
    const auto: Autoboot
    const server: DiscoverServer
    var devices: seq<nat>
    var unresolved: seq<nat>
    /** The live `discover_device` and `discover_boot_option` objects. */
    var dev: map<nat, Device>
    var opt: map<nat, BootOption>

    constructor (config: Config, active: bool)
      ensures Valid() && fresh(auto) && fresh(server) && auto.calm && auto.attempts == []
    {
      auto := new Autoboot(config, active);
      server := new DiscoverServer();
      devices, unresolved, dev, opt := [], [], map[], map[];
    }

    ghost function K(): (k: Books)
      reads this
    {
      Books(dev, opt, devices, unresolved)
    }

    /** Whatever clients may have to be told fits into messages. */
    ghost predicate Small()
      reads this
    {
      FitDevices(dev) && FitOptions(opt)
    }

    /** Everything is in order, but an option may still have to be announced. */
    ghost predicate InOrder()
      reads this, auto, server
    {
      && auto.Valid() && server.Valid()
      && Kept(K()) && DefaultListed(auto.default, K()) && server.known == Known(dev)
    }

    ghost predicate Valid()
      reads this, auto, server
    {
      InOrder() && Mirrored(dev, server.shown)
    }

    ghost function R(): (a: Relay)
      reads this, server
    {
      Relay(dev, server.intact, server.complete, server.failures)
    }

    ghost function State(): (m: Mode)
      reads auto
    {
      Mode(auto.calm, auto.enabled, auto.attempts)
    }

    /** `device_lookup_by_uuid` */
    method Tracks(uuid: string) returns (found: bool)
      requires forall d :: d in devices ==> d in dev
      ensures found <==> exists i :: 0 <= i < |devices| && dev[devices[i]].info.uuid == uuid
    {
      var i := 0;
      while i < |devices|
        invariant 0 <= i <= |devices| && forall j :: 0 <= j < i ==> dev[devices[j]].info.uuid != uuid
      {
        if dev[devices[i]].info.uuid == uuid {
          return true;
        }
        i := i + 1;
      }
      return false;
    }

    /** `notify_boot_option`: the device is announced before its first option. */
    method NotifyBootOption(o: nat, env: Env)
      requires InOrder() && o in opt && opt[o].device in devices && Behind(dev, server.shown, opt[o].device, o)
      modifies this`dev, server
      ensures Valid() && opt[o].device in old(dev) && K() == Notified(old(K()), opt[o].device, true)
      ensures Heard(old(server.clients), server.clients, NewsOf(old(dev)[opt[o].device]),
        NewsOfOption(old(dev)[opt[o].device], o, opt[o].len),
        !old(dev)[opt[o].device].notified, env)
      ensures server.intact == (old(server.intact) && Announceable(old(dev)[opt[o].device]))
      ensures server.failures == old(server.failures)
      ensures FitDevices(old(dev)) && opt[o].len <= MAX_PAYLOAD ==> server.complete == old(server.complete)
    {
      hide Kept, Named, Behind, Mirrored, Known, DefaultListed;
      var d := opt[o].device;
      KeptTracked(K(), d);
      KeptMeans(K());
      CaughtUp(dev, server.shown, d, o, opt[o].len);
      Unheard(dev, d);
      DefaultNotified(auto.default, K(), d);
      NotifiedKept(K(), d, true);
      KnownNotified(dev, d);
      hide Announced, Updated;
      server.Announce(dev[d].id, dev[d].len, o, opt[o].len, !dev[d].notified, env.failsDevice, env.failsOption);
      dev := dev[d := dev[d].(notified := true)];
    }

    /** A resolved option is listed, finalised (the default is reconsidered) and announced. */
    method ListOption(o: nat, b: BootOption, env: Env)
      requires Valid() && o !in opt && b.device in devices && AllResolved(b) && !b.final
      modifies this`dev, this`opt, auto, server
      ensures Valid() && SameMode(old(State()), State())
      ensures b.device in old(dev) && K() == Notified(List(old(K()), o, b), b.device, true)
      ensures Heard(old(server.clients), server.clients, NewsOf(old(dev)[b.device]),
        NewsOfOption(old(dev)[b.device], o, b.len),
        !old(dev)[b.device].notified, env)
      ensures server.intact == (old(server.intact) && Announceable(old(dev)[b.device]))
        && server.failures == old(server.failures)
      ensures Steady(old(R()), R(), b.len <= MAX_PAYLOAD)
      ensures auto.Now() == Offered(old(auto.Now()), b, o, old(dev)[b.device].info, env.start)
    {
      hide Kept, Named, Listed, Known, Heard, Placed, DefaultListed, Behind, Mirrored, Offered, Present;
      Finalise(o, b, env.start);
      ghost var dev1 := dev;
      NotifyBootOption(o, env);
      ListedFits(old(dev), dev1, dev, b.device, o);
    }

    /** List an option and finalise it: the default is reconsidered. */
    method Finalise(o: nat, b: BootOption, start: BootStart)
      requires Valid() && o !in opt && b.device in devices && AllResolved(b) && !b.final
      modifies this`dev, this`opt, auto
      ensures InOrder() && SameMode(old(State()), State()) && Behind(dev, server.shown, b.device, o)
      ensures b.device in old(dev) && K() == List(old(K()), o, b)
      ensures auto.Now() == Offered(old(auto.Now()), b, o, old(dev)[b.device].info, start)
      ensures !b.isDefault ==> unchanged(auto)
    {
      hide Kept, Named, Listed, Known, Placed, Behind, Mirrored, Present;
      var d := b.device;
      KeptTracked(K(), d);
      ListedBehind(dev, server.shown, d, o);
      ListKept(K(), o, b);
      KnownSame(dev, dev[d := dev[d].(options := dev[d].options + [o])]);
      dev := dev[d := dev[d].(options := dev[d].options + [o])];
      // the assertions of `boot_option_finalise` hold
      assert AllResolved(b) && !b.final;
      opt := opt[o := b.(final := true)];
      if b.isDefault {
        ghost var _ := auto.SetDefault(Candidate(o, dev[d].info), start);
      }
    }

    /** One option of `device_handler_discover_context_commit`. */
    method CommitOption(o: nat, b: BootOption, env: Env) returns (ok: bool)
      requires Valid() && o !in opt && b.device in devices && !b.final
      modifies this`dev, this`opt, this`unresolved, auto, server
      ensures Valid() && SameMode(old(State()), State())
      ensures ok <==> !Crashes(b)
      ensures !b.hasImage || !ok ==> K() == old(K())
      ensures ok && b.hasImage ==> forall p :: p in opt <==> p in old(opt) || p == o
      ensures forall p :: p in old(opt) ==> p in opt && opt[p] == old(opt)[p]
      ensures ok && b.hasImage ==> (opt[o].final <==> Resolvable(b, env.works)) && opt[o].len == b.len
      ensures Steady(old(R()), R(), b.len <= MAX_PAYLOAD)
      ensures SameInfo(old(dev), dev) && b.device in old(dev)
      ensures auto.Now() ==
        if ok && Marked(b, env) then Offered(old(auto.Now()), b, o, old(dev)[b.device].info, env.start)
        else old(auto.Now())
    {
      hide Kept, Named, Listed, Mirrored, Present;
      KeptTracked(K(), b.device);
      if !b.hasImage {
        return true;
      }
      var crashed, resolved, r := Resolve(b, env.works);
      ok := !crashed;
      if resolved {
        ListOption(o, r, env);
      } else if ok {
        EnqueueKept(K(), o, r);
        opt, unresolved := opt[o := r], [o] + unresolved;
      }
    }

    /** `device_handler_discover_context_commit`; not `ok`: the option at `n` crashes the program. */
    method Commit(d: nat, options: seq<nat>, parsed: map<nat, BootOption>, envs: nat -> Env)
        returns (ok: bool, ghost n: nat)
      requires Valid() && d in dev && Distinct(options)
      requires forall o :: o in options ==> o !in opt && o in parsed && Unused(parsed[o], d)
      modifies this`dev, this`opt, this`unresolved, this`devices, auto, server
      ensures Valid() && SameMode(old(State()), State())
      ensures devices == Track(old(K()), d).tracked
      ensures Committed(old(opt), opt, options, parsed, envs, n) && CrashedAt(options, parsed, n)
      ensures ok <==> n == |options|
      ensures Steady(old(R()), R(), FitParsed(options, parsed))
      ensures auto.Now() == PresentAll(old(auto.Now()), CommitOffers(options, parsed, envs, old(dev)[d].info, n))
      ensures old(auto.enabled) && auto.attempts == old(auto.attempts) ==>
        auto.offers == old(auto.offers)
          + OffersOf(auto.temp, auto.config, CommitOffers(options, parsed, envs, old(dev)[d].info, n))
    {
      hide Kept, Listed, Committed, Steady, Resolvable, CrashedAt, Mirrored, PresentAll, OffersOf, CommitOffers,
        FitParsed;
      auto.ValidConsistent();
      ghost var info := dev[d].info;
      KeptMeans(K());
      TrackKept(K(), d);
      var found := Tracks(dev[d].info.uuid);
      if !found {
        devices := devices + [d];
      }
      ok, n := CommitAll(d, options, parsed, envs);
      PresentedInOrder(old(auto.Now()), CommitOffers(options, parsed, envs, info, n));
    }

    /** The loop over the options of the context. */
    method CommitAll(d: nat, options: seq<nat>, parsed: map<nat, BootOption>, envs: nat -> Env)
        returns (ok: bool, ghost n: nat)
      requires Valid() && d in devices && Distinct(options)
      requires forall o :: o in options ==> o !in opt && o in parsed && Unused(parsed[o], d)
      modifies this`dev, this`opt, this`unresolved, auto, server
      ensures Valid() && d in old(dev) && n <= |options|
      ensures Committed(old(opt), opt, options, parsed, envs, n) && CrashedAt(options, parsed, n)
      ensures ok <==> n == |options|
      ensures Steady(old(R()), R(), FitParsed(options, parsed))
      ensures auto.Now() == PresentAll(old(auto.Now()), CommitOffers(options, parsed, envs, old(dev)[d].info, n))
    {
      hide Kept, Listed, Committed, Steady, Resolvable, SameMode, Crashes, CommitOffers, PresentAll, Offered, Marked;
      hide SameInfo, FitParsed, CrashFree;
      KeptTracked(K(), d);
      CommitOffersNone(auto.Now(), options, parsed, envs, dev[d].info);
      CommittedNone(opt, options, parsed, envs);
      CrashFreeYet(options, parsed);
      SteadyStart(R(), FitParsed(options, parsed));
      SameInfoStart(dev, d);
      hide Valid;
      var i := 0;
      while i < |options|
        invariant 0 <= i <= |options| && Valid() && CrashFree(options, parsed, i)
        invariant Committed(old(opt), opt, options, parsed, envs, i) && SameInfo(old(dev), dev)
        invariant Steady(old(R()), R(), FitParsed(options, parsed))
        invariant auto.Now() == PresentAll(old(auto.Now()), CommitOffers(options, parsed, envs, old(dev)[d].info, i))
      {
        ghost var opt1, r1, dev1 := opt, R(), dev;
        CommitOffersMore(old(auto.Now()), options, parsed, envs, old(dev)[d].info, i);
        CommittedNext(old(opt), opt, options, parsed, envs, i);
        ok := CommitOption(options[i], parsed[options[i]], envs(i));
        ParsedAt(options, parsed, i);
        SteadyOn(old(R()), r1, R(), FitParsed(options, parsed), parsed[options[i]].len <= MAX_PAYLOAD);
        SameInfoOn(old(dev), dev1, dev, d);
        if !ok {
          return false, i;
        }
        CommittedStep(old(opt), opt1, opt, options, parsed, envs, i);
        i := i + 1;
      }
      CrashedNowhere(options, parsed);
      return true, i;
    }

    /** One option of `process_boot_option_queue`. */
    method ProcessQueued(o: nat, env: Env)
      requires Valid() && o in unresolved
      modifies this`dev, this`opt, this`unresolved, auto, server
      ensures Valid() && SameMode(old(State()), State())
      ensures opt.Keys == old(opt).Keys && (forall p :: p in opt && p != o ==> opt[p] == old(opt)[p])
      ensures forall x :: x != o ==> (x in unresolved <==> x in old(unresolved))
      ensures opt[o].final <==> o !in unresolved
      ensures (opt[o].final <==> Resolvable(old(opt)[o], env.works)) && opt[o].len == old(opt)[o].len
      ensures Steady(old(R()), R(), old(opt)[o].len <= MAX_PAYLOAD)
      ensures SameInfo(old(dev), dev) && old(opt)[o].device in old(dev)
      ensures auto.Now() ==
        if Marked(old(opt)[o], env) then
          Offered(old(auto.Now()), old(opt)[o], o, old(dev)[old(opt)[o].device].info, env.start)
        else old(auto.Now())
    {
      hide Kept, Named, Listed, Placed, Outside, Mirrored, Present;
      QueuedWaits(K(), o);
      KeptTracked(K(), opt[o].device);
      var crashed, ok, r := Resolve(opt[o], env.works);
      assert !crashed;
      if !ok {
        ProgressKept(K(), o, r.resources);
        opt := opt[o := r];
        return;
      }
      DequeueKept(K(), o);
      opt, unresolved := opt - {o}, Outside(unresolved, {o});
      ListOption(o, r, env);
    }

    /** `process_boot_option_queue` */
    method ProcessQueue(envs: nat -> Env)
      requires Valid()
      modifies this`dev, this`opt, this`unresolved, auto, server
      ensures Valid() && SameMode(old(State()), State())
      ensures Processed(old(opt), opt, old(unresolved), unresolved, envs, |old(unresolved)|)
      ensures Steady(old(R()), R(), FitOptions(old(opt)))
      ensures QueueThere(old(K()))
      ensures auto.Now() ==
        PresentAll(old(auto.Now()), QueueOffers(old(unresolved), old(opt), old(dev), envs, |old(unresolved)|))
      ensures old(auto.enabled) && auto.attempts == old(auto.attempts) ==>
        auto.offers == old(auto.offers) + OffersOf(auto.temp, auto.config,
          QueueOffers(old(unresolved), old(opt), old(dev), envs, |old(unresolved)|))
    {
      QueueKnown(K());
      auto.ValidConsistent();
      ghost var a := auto.Now();
      TryAll(envs);
      PresentedInOrder(a, QueueOffers(old(unresolved), old(opt), old(dev), envs, |old(unresolved)|));
    }

    /** The loop over the queue. */
    method TryAll(envs: nat -> Env)
      requires Valid() && QueueThere(K())
      modifies this`dev, this`opt, this`unresolved, auto, server
      ensures Valid()
      ensures Processed(old(opt), opt, old(unresolved), unresolved, envs, |old(unresolved)|)
      ensures Steady(old(R()), R(), FitOptions(old(opt)))
      ensures auto.Now() ==
        PresentAll(old(auto.Now()), QueueOffers(old(unresolved), old(opt), old(dev), envs, |old(unresolved)|))
    {
      hide Kept, Listed, Processed, Steady, Resolvable, SameMode, QueueOffers, PresentAll, Offered, Marked, SameInfo;
      var q := unresolved;
      QueueDistinct(K());
      QueueLive(K());
      QueueOffersNone(auto.Now(), q, opt, dev, envs);
      ProcessedNone(opt, q, envs);
      SteadyStart(R(), FitOptions(opt));
      SameInfoStart(dev, 0);
      hide Valid;
      var i := 0;
      while i < |q|
        invariant 0 <= i <= |q| && Valid()
        invariant Processed(old(opt), opt, q, unresolved, envs, i) && SameInfo(old(dev), dev)
        invariant Steady(old(R()), R(), FitOptions(old(opt)))
        invariant auto.Now() == PresentAll(old(auto.Now()), QueueOffers(q, old(opt), old(dev), envs, i))
      {
        ghost var opt1, queue1, r1, dev1 := opt, unresolved, R(), dev;
        QueueOffersMore(old(auto.Now()), q, old(opt), old(dev), envs, i);
        ProcessedNext(old(opt), opt, q, unresolved, envs, i);
        ProcessQueued(q[i], envs(i));
        ProcessedStep(old(opt), opt1, opt, q, queue1, unresolved, envs, i);
        SteadyOn(old(R()), r1, R(), FitOptions(old(opt)), opt1[q[i]].len <= MAX_PAYLOAD);
        SameInfoOn(old(dev), dev1, dev, old(opt)[q[i]].device);
        i := i + 1;
      }
    }

    /** Stop tracking a device, tell the clients, and free it with its options. */
    method FreeDevice(d: nat, notify: bool, fails: nat -> bool)
      requires Valid() && d in devices && d in dev && (dev[d].notified ==> notify)
      requires auto.default.Some? ==> auto.default.value.option !in dev[d].options
      modifies this`dev, this`opt, this`unresolved, this`devices, server
      ensures Valid() && K() == Gone(old(K()), d) && server.intact == old(server.intact)
        && server.failures == old(server.failures)
      ensures FitDevices(old(dev)) ==> server.complete == old(server.complete)
      ensures Withdrawn(old(server.clients), server.clients, old(dev)[d].id, notify, fails)
    {
      hide Kept, Listed, Placed, Waiting, Known, Named, Outside, Mirrored;
      KeptMeans(K());
      RemovedMirrored(dev, server.shown, d);
      GoneKept(K(), d);
      KnownGone(dev, d);
      if auto.default.Some? {
        DefaultElsewhere(K(), d, auto.default);
      }
      var gone := OptionsOf(Books(dev, opt, devices, unresolved), d);
      unresolved := Outside(unresolved, gone);
      devices := Outside(devices, {d});
      if notify {
        server.Broadcast(DeviceRemove(dev[d].id), fails, server.known - {dev[d].id});
      }
      dev, opt := dev - {d}, opt - gone;
    }

    /** `device_handler_remove` */
    method Remove(d: nat, fails: nat -> bool) returns (ok: bool)
      requires Valid() && d in dev
      modifies this`dev, this`opt, this`unresolved, this`devices, auto, server
      ensures auto.calm == old(auto.calm) && (auto.calm ==> ok) && auto.attempts == old(auto.attempts)
      ensures ok ==> Valid() && K() == Gone(old(K()), d)
      ensures ok ==> auto.enabled == (old(auto.enabled) && (old(auto.default.Some?) ==> auto.default.Some?))
      ensures server.intact == old(server.intact) && server.failures == old(server.failures)
      ensures FitDevices(old(dev)) ==> server.complete == old(server.complete)
      ensures ok ==> Withdrawn(old(server.clients), server.clients, old(dev)[d].id,
        d in old(devices) && old(dev)[d].notified, fails)
    {
      hide Kept, Listed, Placed, Waiting, Known, Named, Outside, Gone, Mirrored;
      ok := auto.Withdraw(set o | o in dev[d].options);
      if !ok {
        return;
      }
      if d in devices {
        FreeDevice(d, dev[d].notified, fails);
      } else {
        KeptMeans(K());
        GoneKept(K(), d);
        KnownGone(dev, d);
        UntrackedEmpty(K(), d);
        RemovedMirrored(dev, server.shown, d);
        if auto.default.Some? {
          DefaultElsewhere(K(), d, auto.default);
        }
        dev := dev - {d};
      }
    }

    /** `device_handler_requery_timeout_fn`: the device stays, its options go, and clients forget both. */
    method Requery(d: nat, fails: nat -> bool) returns (ok: bool)
      requires Valid() && d in dev
      modifies this`dev, this`opt, this`unresolved, auto, server
      ensures auto.calm == old(auto.calm) && (auto.calm ==> ok) && auto.attempts == old(auto.attempts)
      ensures ok ==> Valid() && K() == Silenced(old(K()), d) && auto.enabled == old(auto.enabled)
      ensures server.intact == old(server.intact) && server.failures == old(server.failures)
      ensures FitDevices(old(dev)) ==> server.complete == old(server.complete)
      ensures ok ==> Withdrawn(old(server.clients), server.clients, old(dev)[d].id, true, fails)
    {
      hide Kept, Listed, Placed, Waiting, Known, Named, Outside, Mirrored;
      var gone := OptionsOf(Books(dev, opt, devices, unresolved), d);
      ok := auto.WithdrawForRequery(set o | o in dev[d].options);
      if !ok {
        return;
      }
      KeptMeans(K());
      RemovedMirrored(dev, server.shown, d);
      SilencedKept(K(), d);
      KnownGone(dev, d);
      if auto.default.Some? {
        DefaultElsewhere(K(), d, auto.default);
      }
      unresolved, opt := Outside(unresolved, gone), opt - gone;
      server.Broadcast(DeviceRemove(dev[d].id), fails, server.known - {dev[d].id});
      dev := dev[d := dev[d].(options := [], notified := false)];
    }

    /** `device_handler_reinit`: everything that was discovered goes. */
    method Reinitialise(config: Config, fails: nat -> (nat -> bool)) returns (ok: bool)
      requires Valid()
      modifies this`dev, this`opt, this`unresolved, this`devices, auto, server
      ensures auto.calm == old(auto.calm) && (auto.calm ==> ok) && auto.attempts == old(auto.attempts)
      ensures ok ==> Valid() && devices == [] && unresolved == [] && opt == map[] && server.known == {} && !auto.enabled
      ensures Steady(old(R()), R(), true)
    {
      hide Kept, Listed, Placed, Waiting, Named, Outside, Known, Mirrored;
      ok := auto.Reinit(config);
      if !ok {
        return;
      }
      QueueFreed(K());
      opt, unresolved := opt - (set o | o in unresolved), [];
      while |devices| > 0
        invariant Valid() && auto.default == None && unresolved == [] && !auto.enabled
        invariant auto.calm == old(auto.calm) && auto.attempts == old(auto.attempts)
        invariant Steady(old(R()), R(), true)
        decreases |devices|
      {
        var d := devices[0];
        KeptTracked(K(), d);
        OutsideFirst(K());
        FreeDevice(d, true, fails(|devices|));
      }
      AllGone(K());
    }

    /** `discover_device_create`: a device that is tracked under the UUID, or else a new one. */
    method CreateDevice(d: nat, id: string, info: DeviceInfo, len: nat) returns (r: nat)
      requires Valid() && d !in dev
      requires forall e :: e in dev ==> dev[e].id != id && (dev[e].info.uuid == info.uuid ==> e in devices)
      modifies this`dev
      ensures Valid() && r in dev && dev[r].info.uuid == info.uuid
      ensures if r == d then dev == old(dev)[d := Device(id, info, len, [], false)] else r in devices && dev == old(dev)
    {
      hide Kept, Listed, Placed, Waiting;
      KeptMeans(K());
      var i := 0;
      while i < |devices|
        invariant 0 <= i <= |devices| && forall j :: 0 <= j < i ==> dev[devices[j]].info.uuid != info.uuid
      {
        if dev[devices[i]].info.uuid == info.uuid {
          return devices[i];
        }
        i := i + 1;
      }
      r := d;
      CreatedKept(K(), d, id, info, len);
      dev := dev[d := Device(id, info, len, [], false)];
    }

    /** `discover_server_process_connection`, with the handler's devices. */
    method Connect(others: seq<nat>, fails: nat -> bool)
      requires Valid()
      modifies server
      ensures Valid() && |server.clients| == |old(server.clients)| + 1 && server.failures == old(server.failures)
      ensures AllThere(K()) && Partial(server.clients[0], Enumeration(Listings(K()), others), fails)
      ensures server.intact == (old(server.intact) && Covers(Fitting(Enumeration(Listings(K()), others)), Known(dev)))
      ensures FitDevices(dev) && FitOptions(opt) && (forall k :: 0 <= k < |others| ==> others[k] <= MAX_PAYLOAD) ==>
        server.intact == old(server.intact) && server.complete == old(server.complete)
    {
      hide Kept, Listed, Placed, Waiting, Named, Enumeration, Partial, Covers, Fitting, Known, FitDevices, FitOptions;
      hide Mirrored, Tells, AllFit;
      AllListed(K());
      ListingsTell(K(), server.shown);
      if FitDevices(dev) && FitOptions(opt) && forall k :: 0 <= k < |others| ==> others[k] <= MAX_PAYLOAD {
        AllCovered(K(), others);
      }
      server.Connect(Listings(Books(dev, opt, devices, unresolved)), others, fails);
    }

    /** The loop over devices in `device_handler_apply_temp_autoboot`: each one's first default option. */
    method FirstDefaults() returns (r: seq<Candidate>)
      requires Valid()
      ensures AllThere(K()) && r == Defaults(K(), |devices|)
      ensures forall c :: c in r ==> DefaultListed(Some(c), K())
    {
      AllListed(K());
      hide Kept, DefaultListed, DefaultOf, Known, AllThere, Defaults;
      r := [];
      DefaultsNone(K());
      var i := 0;
      while i < |devices|
        invariant 0 <= i <= |devices| && r == Defaults(K(), i)
        invariant forall k :: 0 <= k < |r| ==> DefaultListed(Some(r[k]), K())
      {
        DefaultsMore(K(), i);
        var found := FirstDefault(devices[i]);
        r := r + found;
        i := i + 1;
      }
    }

    method FirstDefault(d: nat) returns (r: seq<Candidate>)
      requires Valid() && d in devices && AllThere(K())
      ensures d in dev && r == DefaultOf(K(), d, 0)
      ensures forall k :: 0 <= k < |r| ==> DefaultListed(Some(r[k]), K())
    {
      hide Placed, Waiting, Named, Distinct;
      assert Listed(K(), d);
      var j := 0;
      while j < |dev[d].options|
        invariant 0 <= j <= |dev[d].options| && DefaultOf(K(), d, 0) == DefaultOf(K(), d, j)
      {
        if opt[dev[d].options[j]].isDefault {
          return [Candidate(dev[d].options[j], dev[d].info)];
        }
        j := j + 1;
      }
      return [];
    }

    /** `device_handler_apply_temp_autoboot` */
    method Override(o: AutobootOption, starts: nat -> BootStart) returns (ok: bool)
      requires Valid()
      modifies auto
      ensures ok ==> Valid() && SameMode(old(State()), State())
      ensures auto.calm == old(auto.calm) && (auto.calm ==> ok) && (!old(auto.enabled) ==> ok)
      ensures AllThere(K())
      ensures ok && old(auto.enabled && auto.default.Some? && !Matches(o, auto.default.value.device)) ==>
        Rescanned(o, Defaults(K(), |devices|), auto.config, auto.default, auto.pending, old(auto.attempts),
          auto.attempts)
    {
      hide Kept, Rescanned, Matches;
      var available := FirstDefaults();
      ok := auto.ApplyTempAutoboot(o, available, starts);
    }

    /** One step of the system. */
    method Step(step: Step) returns (ok: bool)
      requires Valid()
      modifies this, auto, server
      ensures ok ==> Valid()
      ensures ok && old(Small()) && StepFits(step) ==>
        Small() && server.intact == old(server.intact) && server.complete == old(server.complete)
      ensures old(server.intact) ==> server.failures == 0
      ensures !old(auto.enabled) ==> auto.attempts == old(auto.attempts) && (ok ==> !auto.enabled)
      ensures !ok ==> !auto.calm || StepCrashes(step)
    {
      hide Kept, Known, DefaultListed, FitDevices, FitOptions, Mirrored, Covers, Fitting, Enumeration, Partial;
      ok := true;
      match step {
        case Prefer(o, starts) => ok := Override(o, starts);
        case Autoboots(event) => ok := AutobootStep(event);
        case Joins(others, fails) => Connect(others, fails);
        case Leaves(i) => if i < |server.clients| { server.Drop(i); }
        case Reads(i) => if i < |server.clients| && server.clients[i].queue != [] { var _ := server.Deliver(i); }
        case _ => ok := DeviceStep(step);
      }
    }

    /** Steps that concern devices and their options. */
    method DeviceStep(step: Step) returns (ok: bool)
      requires Valid()
      modifies this, auto, server
      ensures ok ==> Valid()
      ensures ok && old(Small()) && StepFits(step) ==>
        Small() && server.intact == old(server.intact) && server.complete == old(server.complete)
      ensures old(server.intact) ==> server.failures == 0
      ensures !old(auto.enabled) ==> auto.attempts == old(auto.attempts) && (ok ==> !auto.enabled)
      ensures !ok ==> !auto.calm || StepCrashes(step)
    {
      hide Kept, Known, Distinct, Named, DefaultListed, Committed, Processed, FitDevices, FitOptions, Mirrored;
      hide PresentAll, Present, OffersOf, CommitOffers, QueueOffers;
      ok := true;
      ghost var k, small := K(), Small() && StepFits(step);
      match step {
        case Create(d, id, info, len) =>
          if d !in dev && forall e :: e in dev ==> dev[e].id != id && (dev[e].info.uuid == info.uuid ==> e in devices) {
            var _ := CreateDevice(d, id, info, len);
            if small { CreatedFits(k.dev, d, id, info, len); }
          }
        case Discover(d, options, parsed, envs) =>
          if d in dev && Distinct(options) && forall o :: o in options ==>
            o !in opt && o in parsed && Unused(parsed[o], d) {
            ghost var n;
            ok, n := Commit(d, options, parsed, envs);
            if small && ok { CommittedFits(k.opt, opt, options, parsed, envs); }
          }
        case Retry(envs) =>
          ProcessQueue(envs);
          if small { ProcessedFits(k.opt, opt, k.queue, unresolved, envs); }
        case Unplug(d, fails) =>
          if d in dev {
            ok := Remove(d, fails);
            if small { FewerFit(k, d); }
          }
        case Rescan(d, fails) =>
          if d in dev {
            ok := Requery(d, fails);
            if small { FewerFit(k, d); }
          }
        case Restart(config, fails) =>
          ok := Reinitialise(config, fails);
          NoneFit();
        case _ =>
      }
    }

    /** Steps that concern the default option alone. */
    method AutobootStep(event: Event) returns (ok: bool)
      requires Valid()
      modifies auto
      ensures ok ==> Valid()
      ensures !old(auto.enabled) ==> auto.attempts == old(auto.attempts) && (ok ==> !auto.enabled)
      ensures !ok ==> !auto.calm
    {
      hide Kept, Known;
      ok := true;
      match event {
        case Tick(t, start) => if t in auto.timers { auto.Fire(t, start); }
        case Cancel => ok := auto.CancelDefault();
        case Manual(o, asRoot, start) => auto.ManualBoot(o, asRoot, start);
        case Status(error) => auto.Report(error);
        case _ =>
      }
    }

    /** Every run, whatever happens in whichever order; if everything fits into messages, no client ever fails. */
    method Run(steps: seq<Step>) returns (ok: bool)
      requires Valid()
      modifies this, auto, server
      ensures ok ==> Valid()
      ensures old(Small()) && old(server.intact) && (forall n :: 0 <= n < |steps| ==> StepFits(steps[n])) ==>
        server.failures == 0 && (ok ==> server.intact)
      ensures ok && old(Small()) && old(server.complete) && (forall n :: 0 <= n < |steps| ==> StepFits(steps[n])) ==>
        forall i :: 0 <= i < |server.clients| ==> SeesAll(server.clients[i], dev)
      ensures !old(auto.enabled) ==> auto.attempts == old(auto.attempts) && (ok ==> !auto.enabled)
      ensures !ok ==> !auto.calm || exists n :: 0 <= n < |steps| && StepCrashes(steps[n])
    {
      hide Kept, Known, DefaultListed, FitDevices, FitOptions, StepFits, StepCrashes, Mirrored, SeesAll;
      ok := true;
      var n := 0;
      while n < |steps|
        invariant 0 <= n <= |steps| && ok && Valid()
        invariant old(Small()) && old(server.intact) && (forall m :: 0 <= m < n ==> StepFits(steps[m])) ==>
          Small() && server.intact
        invariant old(Small()) && old(server.complete) && (forall m :: 0 <= m < n ==> StepFits(steps[m])) ==>
          Small() && server.complete
        invariant !old(auto.enabled) ==> !auto.enabled && auto.attempts == old(auto.attempts)
      {
        ok := Step(steps[n]);
        if !ok {
          return;
        }
        n := n + 1;
      }
      if server.complete { AllSee(server.clients, dev, server.shown); }
    }
  }

  /**
   An open client lists, once it has processed its queue, for every announced device the options that
   the handler lists for it, the latest first.
   */
  ghost predicate SeesAll(c: Client, dev: map<nat, Device>) {
    !c.remoteClosed ==>
      var view := End(c.view, c.queue);
      forall d :: d in dev && dev[d].notified ==>
        && First(view, dev[d].id) < |view|
        && view[First(view, dev[d].id)] == ClientDevice(dev[d].id, Reversed(dev[d].options))
  }

  lemma AllSee(clients: seq<Client>, dev: map<nat, Device>, shown: Shown)
    requires AllCurrent(clients, shown) && Mirrored(dev, shown)
    ensures forall i :: 0 <= i < |clients| ==> SeesAll(clients[i], dev)
  {
    hide Shows, End, First;
    forall i | 0 <= i < |clients| ensures SeesAll(clients[i], dev) {
      var c := clients[i];
      if !c.remoteClosed {
        assert Current(c, shown);
        forall d | d in dev && dev[d].notified
          ensures First(End(c.view, c.queue), dev[d].id) < |End(c.view, c.queue)|
          ensures End(c.view, c.queue)[First(End(c.view, c.queue), dev[d].id)] ==
            ClientDevice(dev[d].id, Reversed(dev[d].options))
        {
          assert MirroredAt(dev[d], shown);
          ShowsDevice(End(c.view, c.queue), shown, dev[d].id);
        }
      }
    }
  }

  lemma KeptTracked(k: Books, d: nat)
    requires Kept(k) && d in k.tracked
    ensures d in k.dev
  {
  }

  lemma KeptMeans(k: Books)
    requires Kept(k)
    ensures Named(k.dev) && forall d :: d in k.tracked ==> d in k.dev
  {
  }

  /** An option as a parser leaves it. */
  predicate Unused(b: BootOption, d: nat) {
    b.device == d && !b.final
  }

  lemma DefaultNotified(default: Option<Candidate>, k: Books, d: nat)
    requires d in k.dev && DefaultListed(default, k)
    ensures DefaultListed(default, Notified(k, d, true))
  {
  }

  /** A device that is not announced shares its id with none that is. */
  lemma Unheard(dev: map<nat, Device>, d: nat)
    requires Named(dev) && d in dev
    ensures !dev[d].notified ==> dev[d].id !in Known(dev)
  {
  }

  lemma KnownSame(dev: map<nat, Device>, after: map<nat, Device>)
    requires dev.Keys == after.Keys && forall d :: d in dev ==>
      after[d].notified == dev[d].notified && after[d].id == dev[d].id
    ensures Known(dev) == Known(after)
  {
    forall id ensures id in Known(dev) <==> id in Known(after) {
      if id in Known(dev) {
        var e :| e in dev && dev[e].notified && dev[e].id == id;
        assert after[e].notified;
      }
      if id in Known(after) {
        var e :| e in after && after[e].notified && after[e].id == id;
        assert dev[e].notified;
      }
    }
  }

  lemma QueuedWaits(k: Books, o: nat)
    requires Kept(k) && o in k.queue
    ensures Waiting(k, o)
  {
  }

  lemma QueueLive(k: Books)
    requires Kept(k)
    ensures forall o :: o in k.queue ==> o in k.opt
  {
    forall o | o in k.queue ensures o in k.opt { assert Waiting(k, o); }
  }

  lemma QueueDistinct(k: Books)
    requires Kept(k)
    ensures Distinct(k.queue)
  {
  }

  lemma {:induction false} OutsideNone(s: seq<nat>, gone: set<nat>)
    requires forall x :: x in s ==> x !in gone
    ensures Outside(s, gone) == s
  {
    hide Distinct;
    if s != [] {
      assert forall x :: x in s[1..] ==> x in s;
      OutsideNone(s[1..], gone);
    }
  }

  /** A device that is not tracked has nothing to its name. */
  lemma UntrackedEmpty(k: Books, d: nat)
    requires Kept(k) && d in k.dev && d !in k.tracked
    ensures !k.dev[d].notified && Gone(k, d) == k.(dev := k.dev - {d})
  {
    hide Named, Distinct, Outside;
    assert Listed(k, d);
    assert OptionsOf(k, d) == {} by {
      forall o | o in k.opt ensures k.opt[o].device != d {
        assert Placed(k, o);
        if o in k.queue { assert Waiting(k, o); }
      }
    }
    OutsideNone(k.tracked, {d});
    OutsideNone(k.queue, {});
  }

  /** If the default option is not the device's own, removing the device does not touch it. */
  lemma DefaultElsewhere(k: Books, d: nat, default: Option<Candidate>)
    requires Kept(k) && d in k.dev && DefaultListed(default, k)
    requires default.Some?
    ensures default.value.option !in k.dev[d].options ==>
      DefaultListed(default, Gone(k, d)) && DefaultListed(default, Silenced(k, d))
  {
    hide Named, Distinct, Outside, Waiting;
    assert Placed(k, default.value.option);
  }

  lemma KnownGone(dev: map<nat, Device>, d: nat)
    requires Named(dev) && d in dev
    ensures Known(dev - {d}) == if dev[d].notified then Known(dev) - {dev[d].id} else Known(dev)
    ensures Known(dev[d := dev[d].(options := [], notified := false)]) == Known(dev - {d}) == Known(dev) - {dev[d].id}
  {
    var after := dev - {d};
    var silent := dev[d := dev[d].(options := [], notified := false)];
    forall id ensures id in Known(after) <==> id in Known(dev) && id != dev[d].id {
      if id in Known(dev) && id != dev[d].id {
        var e :| e in dev && dev[e].notified && dev[e].id == id;
        assert after[e].notified;
      }
    }
    forall id ensures id in Known(after) <==> id in Known(silent) {
      if id in Known(after) {
        var e :| e in after && after[e].notified && after[e].id == id;
        assert silent[e].notified;
      }
      if id in Known(silent) {
        var e :| e in silent && silent[e].notified && silent[e].id == id;
        assert after[e].notified;
      }
    }
    if !dev[d].notified {
      assert dev[d].id !in Known(dev);
    }
  }

  lemma QueueFreed(k: Books)
    requires Kept(k)
    ensures Kept(k.(opt := k.opt - (set o | o in k.queue), queue := []))
  {
    hide Named, Distinct;
    var r := k.(opt := k.opt - (set o | o in k.queue), queue := []);
    NoneTwice();
    assert forall o :: o in k.queue ==> Waiting(k, o);
    forall e | e in r.dev ensures Listed(r, e) { assert Listed(k, e); }
    forall p | p in r.opt ensures Placed(r, p) { assert Placed(k, p); }
  }

  lemma OutsideFirst(k: Books)
    requires Kept(k) && k.tracked != []
    ensures Outside(k.tracked, {k.tracked[0]}) == k.tracked[1..]
  {
    OutsideNone(k.tracked[1..], {k.tracked[0]});
  }

  /** Nothing is left once no device is tracked and the queue is empty. */
  lemma AllGone(k: Books)
    requires Kept(k) && k.tracked == [] && k.queue == []
    ensures k.opt == map[] && Known(k.dev) == {}
  {
    assert forall d :: d in k.dev ==> Listed(k, d);
    assert forall o :: o in k.opt ==> Placed(k, o);
    assert k.opt.Keys == {};
  }

  /** Every tracked device is there, and so is every option it lists. */
  ghost predicate AllThere(k: Books) {
    && (forall i :: 0 <= i < |k.tracked| ==> k.tracked[i] in k.dev)
    && (forall d :: d in k.dev ==> forall j :: 0 <= j < |k.dev[d].options| ==> k.dev[d].options[j] in k.opt)
  }

  function ListingOf(k: Books, d: nat): (r: Listing)
    requires d in k.dev && forall j :: 0 <= j < |k.dev[d].options| ==> k.dev[d].options[j] in k.opt
  {
    Listing(k.dev[d].id, k.dev[d].len,
            seq(|k.dev[d].options|,
                j requires 0 <= j < |k.dev[d].options| => Item(k.dev[d].options[j], k.opt[k.dev[d].options[j]].len)))
  }

  function Listings(k: Books): (r: seq<Listing>)
    requires AllThere(k)
  {
    seq(|k.tracked|, i requires 0 <= i < |k.tracked| => ListingOf(k, k.tracked[i]))
  }

  lemma AllListed(k: Books)
    requires Kept(k)
    ensures AllThere(k)
  {
    hide Named, Distinct;
    forall d, j | d in k.dev && 0 <= j < |k.dev[d].options| ensures k.dev[d].options[j] in k.opt {
      assert Listed(k, d);
      assert k.dev[d].options[j] in k.dev[d].options;
    }
  }

  /** The first default option from position `j` on in the list of a device, if there is one. */
  ghost function DefaultOf(k: Books, d: nat, j: nat): (r: seq<Candidate>)
    requires AllThere(k) && d in k.dev
    decreases |k.dev[d].options| - j
  {
    if j >= |k.dev[d].options| then []
    else if k.opt[k.dev[d].options[j]].isDefault then [Candidate(k.dev[d].options[j], k.dev[d].info)]
    else DefaultOf(k, d, j + 1)
  }

  /** A device contributes the first of its options that is marked as default, and nothing if there is none. */
  lemma {:induction false} DefaultOfFirst(k: Books, d: nat, j: nat)
    requires AllThere(k) && d in k.dev && j <= |k.dev[d].options|
    ensures var s, r := k.dev[d].options, DefaultOf(k, d, j);
      if forall i :: j <= i < |s| ==> !k.opt[s[i]].isDefault then r == []
      else exists n ::
        && j <= n < |s| && r == [Candidate(s[n], k.dev[d].info)] && k.opt[s[n]].isDefault
        && forall i :: j <= i < n ==> !k.opt[s[i]].isDefault
    decreases |k.dev[d].options| - j
  {
    var s := k.dev[d].options;
    if j < |s| && !k.opt[s[j]].isDefault { DefaultOfFirst(k, d, j + 1); }
  }

  ghost function Defaults(k: Books, i: nat): (r: seq<Candidate>)
    requires AllThere(k) && i <= |k.tracked|
  {
    if i == 0 then [] else Defaults(k, i - 1) + DefaultOf(k, k.tracked[i - 1], 0)
  }

  lemma DefaultsNone(k: Books)
    requires AllThere(k)
    ensures Defaults(k, 0) == []
  {
  }

  lemma DefaultsMore(k: Books, i: nat)
    requires AllThere(k) && i < |k.tracked|
    ensures k.tracked[i] in k.dev && Defaults(k, i + 1) == Defaults(k, i) + DefaultOf(k, k.tracked[i], 0)
  {
  }

  /** The enumeration tells a new client of what has been announced, and of devices without options. */
  lemma ListingsTell(k: Books, shown: Shown)
    requires Kept(k) && AllThere(k) && Mirrored(k.dev, shown) && shown.Keys == Known(k.dev)
    ensures Tells(Listings(k), shown)
  {
    hide Listed, Placed, Waiting, Listings;
    forall i, j | 0 <= i < j < |k.tracked| ensures k.dev[k.tracked[i]].id != k.dev[k.tracked[j]].id {
      assert k.tracked[i] != k.tracked[j];
    }
    hide Kept;
    ListingsAre(k);
    var all := Listings(k);
    forall id | id in shown ensures exists i :: 0 <= i < |all| && all[i].id == id {
      var i := ListedAt(k, id);
    }
    forall i | 0 <= i < |all| ensures OptionIds(all[i]) == if all[i].id in shown then shown[all[i].id] else [] {
      var d := k.tracked[i];
      Unheard(k.dev, d);
      assert MirroredAt(k.dev[d], shown);
    }
  }

  lemma ListingsAre(k: Books)
    requires Kept(k) && AllThere(k)
    ensures Named(k.dev) && |Listings(k)| == |k.tracked|
    ensures forall i :: 0 <= i < |k.tracked| ==>
      && k.tracked[i] in k.dev && Listings(k)[i].id == k.dev[k.tracked[i]].id
      && OptionIds(Listings(k)[i]) == k.dev[k.tracked[i]].options
  {
    hide Listed, Placed, Waiting;
    forall i | 0 <= i < |k.tracked| ensures OptionIds(Listings(k)[i]) == k.dev[k.tracked[i]].options {
    }
  }

  /** If everything fits, every announced device is enumerated. */
  lemma AllCovered(k: Books, others: seq<nat>)
    requires Kept(k) && AllThere(k) && FitDevices(k.dev) && FitOptions(k.opt) && forall i :: 0 <= i < |others| ==>
      others[i] <= MAX_PAYLOAD
    ensures Covers(Fitting(Enumeration(Listings(k), others)), Known(k.dev)) && AllFit(Enumeration(Listings(k), others))
  {
    hide Enumeration, Fitting, Kept, FitDevices, FitOptions, Listings;
    ListingsFit(k);
    EnumerationFits(Listings(k), others);
    forall id | id in Known(k.dev) ensures Names(Enumeration(Listings(k), others), id) {
      var i := ListedAt(k, id);
      EnumerationNames(Listings(k), others, i);
    }
  }

  lemma ListingsFit(k: Books)
    requires AllThere(k) && FitDevices(k.dev) && FitOptions(k.opt)
    ensures forall i :: 0 <= i < |Listings(k)| ==> FitListing(Listings(k)[i])
  {
    forall i | 0 <= i < |Listings(k)| ensures FitListing(Listings(k)[i]) {
      var d := k.tracked[i];
      assert d in k.dev && Fits(DeviceAdd(k.dev[d].id, k.dev[d].len));
    }
  }

  /** Where an announced device is listed. */
  lemma ListedAt(k: Books, id: string) returns (i: nat)
    requires Kept(k) && AllThere(k) && id in Known(k.dev)
    ensures i < |Listings(k)| && Listings(k)[i].id == id
  {
    hide Named, Distinct, Placed, Waiting;
    var d :| d in k.dev && k.dev[d].notified && k.dev[d].id == id;
    assert Listed(k, d);
    i :| 0 <= i < |k.tracked| && k.tracked[i] == d;
  }

  lemma CreatedKept(k: Books, d: nat, id: string, info: DeviceInfo, len: nat)
    requires Kept(k) && d !in k.dev && forall e :: e in k.dev ==> k.dev[e].id != id && k.dev[e].info.uuid != info.uuid
    ensures Kept(k.(dev := k.dev[d := Device(id, info, len, [], false)]))
    ensures Known(k.dev[d := Device(id, info, len, [], false)]) == Known(k.dev)
  {
    hide Distinct;
    var r := k.(dev := k.dev[d := Device(id, info, len, [], false)]);
    NoneTwice();
    forall e | e in r.dev ensures Listed(r, e) { if e != d { assert Listed(k, e); } }
    forall p | p in r.opt ensures Placed(r, p) { assert Placed(k, p); }
    forall p | p in r.queue ensures Waiting(r, p) { assert Waiting(k, p); }
    assert r.dev - {d} == k.dev;
    KnownGone(r.dev, d);
  }

  lemma KnownNotified(dev: map<nat, Device>, d: nat)
    requires d in dev
    ensures Known(dev[d := dev[d].(notified := true)]) == Known(dev) + {dev[d].id}
    ensures dev[d].notified ==> dev[d].id in Known(dev)
  {
    var after := dev[d := dev[d].(notified := true)];
    forall id ensures id in Known(after) <==> id in Known(dev) + {dev[d].id} {
      if id in Known(dev) {
        var e :| e in dev && dev[e].notified && dev[e].id == id;
        assert after[e].notified;
      }
      if id == dev[d].id { assert after[d].notified; }
    }
  }
}
