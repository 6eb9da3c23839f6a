/**
 Choosing and booting a default option (discover/device-handler.c): priorities,
 the countdown and its timer, cancelling, temporary overrides, manual boots.
 Ghost fields record which options were presented since there last was no default,
 and every default boot with the number of timer ticks that led up to it.
 */
module Autoboot {
  import opened Common

  datatype DeviceType = Network | Disk | Usb | Optical | Any | Luks | Unknown
  datatype Bootdev = BootNetwork | BootDisk | BootSafe | BootCdrom | BootSetup | BootInvalid
  datatype AutobootOption = ByType(kind: DeviceType) | ByUuid(uuid: string)
  datatype DeviceInfo = DeviceInfo(uuid: string, kind: DeviceType)

  datatype Config = Config(autobootOptions: seq<AutobootOption>, ipmi: Option<Bootdev>, timeoutSec: nat)

  /** A boot option and what the priorities depend on, its device. */
  datatype Candidate = Candidate(option: nat, device: DeviceInfo)

  /**
   How a call of `boot` ends: it reports an error and returns no task, or it returns
   a task, having reported an error or not (a finished load is reported as one).
   */
  datatype BootStart = Refused | Running(reported: bool)

  const TEMP_USER: int := 1
  const REMOTE: int := 2
  const LOCAL_FIRST: int := 3
  const DISABLED: int := 0xff
  const UINT: nat := 0x1_0000_0000

  // --- priorities ---

  predicate Matches(o: AutobootOption, dev: DeviceInfo) {
    match o
    case ByUuid(uuid) => uuid == dev.uuid
    case ByType(kind) => kind == dev.kind || kind == Any
  }

  function IpmiBootdev(kind: DeviceType): (r: Option<Bootdev>) {
    match kind
    case Network => Some(BootNetwork)
    case Disk => Some(BootDisk)
    case Usb => Some(BootDisk)
    case Optical => Some(BootCdrom)
    case _ => None
  }

  /** The first configured entry that matches decides, if there is any. */
  ghost predicate FirstMatch(opts: seq<AutobootOption>, dev: DeviceInfo, r: int) {
    || (r == -1 && forall i :: 0 <= i < |opts| ==> !Matches(opts[i], dev))
    || (LOCAL_FIRST <= r < LOCAL_FIRST + |opts| && Matches(opts[r - LOCAL_FIRST], dev)
        && forall i :: 0 <= i < r - LOCAL_FIRST ==> !Matches(opts[i], dev))
  }

  /** `autoboot_option_priority` */
  method AutobootOptionPriority(opts: seq<AutobootOption>, dev: DeviceInfo) returns (r: int)
    ensures FirstMatch(opts, dev, r)
  {
    var i := 0;
    while i < |opts|
      invariant 0 <= i <= |opts| && forall k :: 0 <= k < i ==> !Matches(opts[k], dev)
    {
      if Matches(opts[i], dev) {
        return LOCAL_FIRST + i;
      }
      i := i + 1;
    }
    return -1;
  }

  /**
   What a priority means: a temporary override decides alone, then an IPMI setting
   alone, then the configured order, and with none of these any device will do.
   */
  ghost predicate HasPriority(temp: Option<AutobootOption>, config: Config, dev: DeviceInfo, r: int) {
    if temp.Some? then r == if Matches(temp.value, dev) then TEMP_USER else DISABLED
    else if config.ipmi.Some? then r == if IpmiBootdev(dev.kind) == config.ipmi then REMOTE else DISABLED
    else if config.autobootOptions == [] then r == LOCAL_FIRST
    else
      || (r > 0 && FirstMatch(config.autobootOptions, dev, r))
      || (r == DISABLED && FirstMatch(config.autobootOptions, dev, -1))
  }

  /** The position of the first entry that matches; the length of the list if there is none. */
  ghost function FirstIndex(opts: seq<AutobootOption>, dev: DeviceInfo): (i: nat)
    ensures i <= |opts| && (i < |opts| ==> Matches(opts[i], dev)) && forall k :: 0 <= k < i ==> !Matches(opts[k], dev)
  {
    if opts == [] || Matches(opts[0], dev) then 0 else 1 + FirstIndex(opts[1..], dev)
  }

  ghost function PriorityOf(temp: Option<AutobootOption>, config: Config, dev: DeviceInfo): (r: int) {
    if temp.Some? then if Matches(temp.value, dev) then TEMP_USER else DISABLED
    else if config.ipmi.Some? then if IpmiBootdev(dev.kind) == config.ipmi then REMOTE else DISABLED
    else if config.autobootOptions == [] then LOCAL_FIRST
    else
      var i := FirstIndex(config.autobootOptions, dev);
      if i < |config.autobootOptions| then LOCAL_FIRST + i else DISABLED
  }

  lemma PriorityUnique(temp: Option<AutobootOption>, config: Config, dev: DeviceInfo, r: int)
    requires HasPriority(temp, config, dev, r)
    ensures r == PriorityOf(temp, config, dev) >= TEMP_USER
  {
    hide Matches, IpmiBootdev;
  }

  // --- which devices the priorities enable ---

  /** An entry matches a device by its UUID, by its type, or because it is for any device. */
  lemma MatchesMeans(o: AutobootOption, dev: DeviceInfo)
    ensures Matches(o, dev) <==> o in {ByUuid(dev.uuid), ByType(dev.kind), ByType(Any)}
  {
  }

  /** A temporary override enables exactly what it matches. */
  lemma OverrideEnables(o: AutobootOption, config: Config, dev: DeviceInfo)
    ensures PriorityOf(Some(o), config, dev) < DISABLED <==> o in {ByUuid(dev.uuid), ByType(dev.kind), ByType(Any)}
  {
    MatchesMeans(o, dev);
  }

  /**
   With an order configured, a device is enabled exactly if one of the first 252 entries matches it: behind
   those the position leaves the range of priorities.
   */
  lemma OrderEnablesIff(config: Config, dev: DeviceInfo)
    requires config.ipmi == None && config.autobootOptions != []
    ensures PriorityOf(None, config, dev) < DISABLED <==>
      exists k :: 0 <= k < |config.autobootOptions| && k < DISABLED - LOCAL_FIRST
        && config.autobootOptions[k] in {ByUuid(dev.uuid), ByType(dev.kind), ByType(Any)}
  {
    var opts := config.autobootOptions;
    forall k | 0 <= k < |opts|
      ensures Matches(opts[k], dev) <==> opts[k] in {ByUuid(dev.uuid), ByType(dev.kind), ByType(Any)}
    {
      MatchesMeans(opts[k], dev);
    }
    hide Matches;
    var i := FirstIndex(opts, dev);
    if PriorityOf(None, config, dev) < DISABLED {
      assert i < |opts| && i < DISABLED - LOCAL_FIRST;
    }
  }

  /** An entry for any device among them enables every device. */
  lemma AnyEnables(config: Config, dev: DeviceInfo, k: nat)
    requires config.ipmi == None && k < |config.autobootOptions| && k < DISABLED - LOCAL_FIRST
    requires config.autobootOptions[k] == ByType(Any)
    ensures LOCAL_FIRST <= PriorityOf(None, config, dev) <= LOCAL_FIRST + k
  {
    MatchesMeans(ByType(Any), dev);
  }

  /** A list of UUIDs enables exactly the devices that have one of them. */
  lemma UuidsEnable(config: Config, dev: DeviceInfo)
    requires config.ipmi == None && 0 < |config.autobootOptions| <= DISABLED - LOCAL_FIRST
    requires forall k :: 0 <= k < |config.autobootOptions| ==> config.autobootOptions[k].ByUuid?
    ensures PriorityOf(None, config, dev) < DISABLED <==> ByUuid(dev.uuid) in config.autobootOptions
  {
    OrderEnablesIff(config, dev);
    hide PriorityOf;
    var opts := config.autobootOptions;
    if exists k :: 0 <= k < |opts| && opts[k] in {ByUuid(dev.uuid), ByType(dev.kind), ByType(Any)} {
      var k :| 0 <= k < |opts| && opts[k] in {ByUuid(dev.uuid), ByType(dev.kind), ByType(Any)};
      assert opts[k].ByUuid?;
    }
    if ByUuid(dev.uuid) in opts {
      var k :| 0 <= k < |opts| && opts[k] == ByUuid(dev.uuid);
      assert opts[k] in {ByUuid(dev.uuid), ByType(dev.kind), ByType(Any)};
    }
  }

  /** The order that is built in: the network first, then anything. */
  const BUILT_IN: seq<AutobootOption> := [ByType(Network), ByType(Any)]

  lemma BuiltInOrder(config: Config, dev: DeviceInfo)
    requires config.ipmi == None && config.autobootOptions == BUILT_IN
    ensures PriorityOf(None, config, dev) == if dev.kind == Network then 3 else 4
  {
    MatchesMeans(ByType(Network), dev);
    MatchesMeans(ByType(Any), dev);
    hide Matches;
    assert config.autobootOptions[0] == ByType(Network) && config.autobootOptions[1] == ByType(Any);
  }

  /** An IPMI setting enables exactly the device types that go with it. */
  lemma IpmiEnables(config: Config, dev: DeviceInfo)
    requires config.ipmi.Some?
    ensures PriorityOf(None, config, dev) == if
      || (config.ipmi.value == BootNetwork && dev.kind == Network)
      || (config.ipmi.value == BootDisk && dev.kind in {Disk, Usb})
      || (config.ipmi.value == BootCdrom && dev.kind == Optical) then 2 else 0xff
  {
  }

  // --- the options presented, and which of them wins ---

  datatype Offer = Offer(candidate: Candidate, priority: int)

  /** The earliest of the offers with the lowest number. */
  ghost predicate Wins(offers: seq<Offer>, c: Candidate, p: int) {
    exists i :: Best(offers, i) && offers[i] == Offer(c, p)
  }

  ghost predicate Best(offers: seq<Offer>, i: int) {
    && 0 <= i < |offers|
    && (forall j :: 0 <= j < |offers| ==> offers[i].priority <= offers[j].priority)
    && (forall j :: 0 <= j < i ==> offers[i].priority < offers[j].priority)
  }

  /** How often an offer beat all the earlier ones. */
  ghost function Replacements(offers: seq<Offer>): (k: nat) {
    if |offers| <= 1 then 0
    else
      var n := |offers| - 1;
      Replacements(offers[..n]) + if forall j :: 0 <= j < n ==> offers[n].priority < offers[j].priority then 1 else 0
  }

  ghost predicate Enabled(offers: seq<Offer>) {
    forall j :: 0 <= j < |offers| ==> TEMP_USER <= offers[j].priority < DISABLED
  }

  /** One more offer: it wins if it beats the winner, which is then replaced. */
  lemma Presented(offers: seq<Offer>, c: Candidate, p: int, o: Offer)
    requires Wins(offers, c, p)
    ensures var all := offers + [o];
      if o.priority < p then Wins(all, o.candidate, o.priority) && Replacements(all) == Replacements(offers) + 1
      else Wins(all, c, p) && Replacements(all) == Replacements(offers)
  {
    var all := offers + [o];
    var n := |offers|;
    var i :| Best(offers, i) && offers[i] == Offer(c, p);
    assert all[..n] == offers && all[i] == offers[i] && all[n] == o;
    if o.priority < p {
      assert Best(all, n);
    } else {
      assert Best(all, i);
    }
  }

  /** Each replacement lowers the number, so there cannot be many. */
  lemma FewReplacements(offers: seq<Offer>, c: Candidate, p: int)
    requires Wins(offers, c, p) && Enabled(offers)
    ensures |offers| > 0 && Replacements(offers) + p <= offers[0].priority <= 0xfe
    ensures Replacements(offers) <= 253
  {
    hide Replacements;
    var d, q := Winner(offers);
    WinnerUnique(offers, c, p, d, q);
  }

  lemma {:induction false} Winner(offers: seq<Offer>) returns (c: Candidate, p: int)
    requires |offers| > 0
    ensures Wins(offers, c, p) && Replacements(offers) + p <= offers[0].priority
  {
    hide Wins, Replacements;
    var n := |offers| - 1;
    var o := offers[n];
    if n == 0 {
      WinsAlone(o);
      assert offers == [o];
      return o.candidate, o.priority;
    }
    var before := offers[..n];
    c, p := Winner(before);
    Presented(before, c, p, o);
    assert before + [o] == offers;
    if o.priority < p {
      return o.candidate, o.priority;
    }
  }

  lemma WinsAlone(o: Offer)
    ensures Wins([o], o.candidate, o.priority) && Replacements([o]) == 0
  {
    assert Best([o], 0);
  }

  lemma WinnerUnique(offers: seq<Offer>, c: Candidate, p: int, d: Candidate, q: int)
    requires Wins(offers, c, p) && Wins(offers, d, q)
    ensures c == d && p == q
  {
    var i :| Best(offers, i) && offers[i] == Offer(c, p);
    var j :| Best(offers, j) && offers[j] == Offer(d, q);
    assert i == j;
  }

  // --- the handler's autoboot state ---

  /** A default boot: the option, the offers it won against, and the ticks since it had any rival. */
  datatype Attempt = Attempt(candidate: Candidate, priority: int, offers: seq<Offer>, limit: nat, ticks: nat,
      exact: bool)

  ghost predicate Right(a: Attempt) {
    && Wins(a.offers, a.candidate, a.priority)
    && (a.exact ==> a.ticks == a.limit + 2 * Replacements(a.offers) && Replacements(a.offers) <= 253)
  }

  datatype Event =
    | Found(candidate: Candidate, start: BootStart)
    | Tick(timer: nat, start: BootStart)
    | Cancel
    | Temporary(temp: AutobootOption, offers: seq<Candidate>, starts: nat -> BootStart)
    | Manual(option: Option<Candidate>, asRoot: bool, start: BootStart)
    | Status(error: bool)
    | Removed(options: set<nat>)
    | Requeried(options: set<nat>)
    | Reconfigured(config: Config)

  // --- presenting options ---

  /** What the choice of a default depends on and changes. */
  datatype Standing = Standing(
    enabled: bool, config: Config, temp: Option<AutobootOption>, default: Option<Candidate>, priority: int,
    offers: seq<Offer>, attempts: seq<Attempt>, pending: bool, calm: bool)

  /** An option that is presented, and how a boot would start if it were attempted now. */
  datatype Presentation = Presentation(candidate: Candidate, start: BootStart)

  /** An option that is marked as default is found. */
  ghost function Present(a: Standing, x: Presentation): (b: Standing) {
    var c, p := x.candidate, PriorityOf(a.temp, a.config, x.candidate.device);
    if !a.enabled || p >= DISABLED then a
    else if a.default.Some? then
      var beats := p < a.priority;
      a.(offers := a.offers + [Offer(c, p)], default := if beats then Some(c) else a.default,
         priority := if beats then p else a.priority)
    else if a.config.timeoutSec > 0 || a.pending then a.(default := Some(c), priority := p, offers := [Offer(c, p)])
    else
      var dropped := x.start != Running(false);
      a.(default := if dropped then None else Some(c), priority := p,
         offers := if dropped then [] else [Offer(c, p)], pending := x.start.Running?,
         attempts := a.attempts + [Attempt(c, p, [Offer(c, p)], 0, 0, a.calm)])
  }

  ghost function PresentAll(a: Standing, s: seq<Presentation>): (b: Standing) {
    if s == [] then a else Present(PresentAll(a, s[..|s| - 1]), s[|s| - 1])
  }

  lemma PresentMore(a: Standing, s: seq<Presentation>, x: Presentation)
    ensures PresentAll(a, s + [x]) == Present(PresentAll(a, s), x)
  {
    assert (s + [x])[..|s|] == s;
  }

  /** The offers that options make: those whose priority is not disabled, in order. */
  ghost function OffersOf(temp: Option<AutobootOption>, config: Config, s: seq<Presentation>): (r: seq<Offer>) {
    if s == [] then []
    else
      var c := s[|s| - 1].candidate;
      var p := PriorityOf(temp, config, c.device);
      OffersOf(temp, config, s[..|s| - 1]) + if p < DISABLED then [Offer(c, p)] else []
  }

  /** There is a default exactly if there is an offer. */
  ghost predicate Consistent(a: Standing) {
    a.default == None <==> a.offers == []
  }

  /** Nothing but the choice of the default changes. */
  ghost predicate SameTerms(a: Standing, b: Standing) {
    b.enabled == a.enabled && b.config == a.config && b.temp == a.temp && b.calm == a.calm && a.attempts <= b.attempts
  }

  lemma PresentOne(a: Standing, x: Presentation)
    requires Consistent(a)
    ensures var b, p := Present(a, x), PriorityOf(a.temp, a.config, x.candidate.device);
      && Consistent(b) && SameTerms(a, b) && (!a.enabled ==> b == a)
      && (a.enabled && b.attempts == a.attempts ==>
            b.offers == a.offers + (if p < DISABLED then [Offer(x.candidate, p)] else []) && b.pending == a.pending)
  {
    hide PriorityOf;
    assert a.offers + [] == a.offers && [] + a.offers == a.offers;
  }

  /**
   With autoboot on, and as long as no boot is attempted, exactly the enabled ones of the options
   presented become offers, in order; there is then a default as soon as there is an offer. With
   autoboot off nothing changes.
   */
  lemma {:induction false} PresentedInOrder(a: Standing, s: seq<Presentation>)
    requires Consistent(a)
    ensures var b := PresentAll(a, s);
      && Consistent(b) && SameTerms(a, b) && (!a.enabled ==> b == a)
      && (a.enabled && b.attempts == a.attempts ==>
            b.offers == a.offers + OffersOf(a.temp, a.config, s) && b.pending == a.pending)
  {
    if s == [] {
      assert a.offers + [] == a.offers;
    } else {
      var n := |s| - 1;
      PresentedInOrder(a, s[..n]);
      PresentOne(PresentAll(a, s[..n]), s[n]);
      hide PriorityOf, Present, Consistent;
    }
  }

  /** The first of `n` candidates that matches, none if there is no such. */
  ghost predicate IsFirst(o: AutobootOption, s: seq<Candidate>, n: nat, r: Option<Candidate>)
    requires n <= |s|
  {
    if r == None then forall k :: 0 <= k < n ==> !Matches(o, s[k].device)
    else exists k :: 0 <= k < n && s[k] == r.value && Matches(o, s[k].device) && forall j :: 0 <= j < k ==>
      !Matches(o, s[j].device)
  }

  ghost predicate Attempted(before: seq<Attempt>, after: seq<Attempt>, c: Candidate) {
    before < after && after[|before|].candidate == c
  }

  /**
   After the rescan the first matching candidate is the default, or, with a timeout of
   zero and no other boot pending, the next boot that was attempted.
   */
  ghost predicate Rescanned(o: AutobootOption, s: seq<Candidate>, config: Config, default: Option<Candidate>,
      pending: bool, before: seq<Attempt>, after: seq<Attempt>)
  {
    && before <= after
    && (config.timeoutSec > 0 ==> IsFirst(o, s, |s|, default))
    && (config.timeoutSec == 0 && !(pending && after == before) ==>
          IsFirst(o, s, |s|, if after == before then None else Some(after[|before|].candidate)))
  }

  class Autoboot {
    var config: Config
    var temp: Option<AutobootOption>
    var enabled: bool
    var default: Option<Candidate>
    var priority: int
    var sec: nat
    /** `timeout_waiter`, and the timers registered for `default_timeout` that have not fired. */
    var timer: Option<nat>
    var timers: set<nat>
    var made: nat
    var pending: bool
    var pendingIsDefault: bool
    var last: Option<Candidate>

    ghost var offers: seq<Offer>
    ghost var limit: nat
    ghost var ticks: nat
    ghost var attempts: seq<Attempt>
    /** No manual boot was made while a countdown was running, nor (as no boot is pending then) did one fail. */
    ghost var calm: bool

    constructor (config: Config, active: bool)
      ensures Valid() && calm && attempts == [] && enabled == active && default == None
    {
      this.config, temp, enabled := config, None, active;
      default, priority, sec, timer, timers, made := None, 0, 0, None, {}, 0;
      pending, pendingIsDefault, last := false, false, None;
      offers, limit, ticks, attempts, calm := [], 0, 0, [], true;
    }

    /** In every state of every run. */
    ghost predicate Chosen()
      reads this`default, this`offers, this`priority, this`attempts, this`timers, this`made
    {
      && (default == None ==> offers == [])
      && (default.Some? ==> Wins(offers, default.value, priority) && Enabled(offers))
      && (forall a :: a in attempts ==> Right(a))
      && (forall t :: t in timers ==> t < made)
    }

    /** The countdown, as long as no manual boot interferes. */
    ghost predicate Counting()
      reads this`calm, this`timers, this`timer, this`default, this`pending, this`limit, this`ticks, this`sec,
        this`offers
    {
      calm ==>
        && timers == (if timer.Some? then {timer.value} else {})
        && (timer.Some? ==> default.Some? && !pending)
        && (default.Some? && timer == None ==> pending)
        && (timer.Some? && limit + 506 < UINT ==> ticks + sec + 1 == limit + 2 * Replacements(offers))
    }

    ghost predicate Valid()
      reads this
    {
      (!enabled ==> default == None) && Chosen() && Counting()
    }

    ghost function Now(): (a: Standing)
      reads this
    {
      Standing(enabled, config, temp, default, priority, offers, attempts, pending, calm)
    }

    lemma ValidConsistent()
      requires Valid()
      ensures Consistent(Now())
    {
    }

    /** `default_option_priority` */
    method DefaultOptionPriority(dev: DeviceInfo) returns (r: int)
      ensures HasPriority(temp, config, dev, r) && r >= TEMP_USER
    {
      if temp.Some? {
        return if Matches(temp.value, dev) then TEMP_USER else DISABLED;
      }
      if config.ipmi.Some? {
        return if IpmiBootdev(dev.kind) == config.ipmi then REMOTE else DISABLED;
      }
      if |config.autobootOptions| == 0 {
        return LOCAL_FIRST;
      }
      var found := AutobootOptionPriority(config.autobootOptions, dev);
      return if found > 0 then found else DISABLED;
    }

    /** `device_handler_boot_status_cb` */
    method BootStatus(error: bool)
      requires Chosen()
      modifies this`pending, this`default, this`offers
      ensures Chosen()
      ensures error ==> default == None && !pending && offers == []
      ensures !error ==> unchanged(this)
    {
      if error {
        pending, default := false, None;
        offers := [];
      }
    }

    /** The end of `default_timeout`: boot the default option. */
    method BootDefault(start: BootStart)
      requires Chosen() && default.Some? && !pending && sec == 0 && enabled
      requires calm && limit + 506 < UINT ==> ticks == limit + 2 * Replacements(offers)
      modifies this`default, this`pending, this`pendingIsDefault, this`offers, this`attempts
      ensures Chosen() && (default.Some? ==> pending)
        && (default == None || (default == old(default) && offers == old(offers)))
      ensures pending == start.Running? && pendingIsDefault
      ensures default == (if start == Running(false) then old(default) else None)
      ensures offers == if start == Running(false) then old(offers) else []
      ensures attempts == old(attempts)
        + [Attempt(old(default.value), priority, old(offers), limit, ticks, calm && limit + 506 < UINT)]
    {
      hide Wins, Replacements;
      FewReplacements(offers, default.value, priority);
      attempts := attempts + [Attempt(default.value, priority, offers, limit, ticks, calm && limit + 506 < UINT)];
      BootStatus(start != Running(false));
      pending := start.Running?;
      pendingIsDefault := true;
    }

    /** `default_timeout` */
    method DefaultTimeout(start: BootStart)
      requires Chosen() && (!enabled ==> default == None)
      requires calm && limit + 506 < UINT && default.Some? && !pending && sec == 0 ==>
        ticks == limit + 2 * Replacements(offers)
      modifies this`default, this`pending, this`pendingIsDefault, this`offers, this`attempts
      modifies this`sec, this`timer, this`timers, this`made, this`last
      ensures Chosen() && (default == None || (default == old(default) && offers == old(offers)))
      ensures old(default == None || pending) ==> unchanged(this)
      ensures old(default.Some? && !pending) && old(sec) > 0 ==>
        && sec == old(sec) - 1 && timer == Some(old(made)) && timers == old(timers) + {old(made)}
        && made == old(made) + 1
        && last == default && unchanged(this`default, this`pending, this`offers, this`attempts)
      ensures old(default.Some? && !pending) && old(sec) == 0 ==>
        && timer == None && timers == old(timers) && (default.Some? ==> pending) && pending == start.Running?
        && made == old(made) && default == (if start == Running(false) then old(default) else None)
        && offers == (if start == Running(false) then old(offers) else [])
        && attempts == old(attempts)
          + [Attempt(old(default.value), priority, old(offers), limit, ticks, calm && limit + 506 < UINT)]
    {
      hide Wins, Replacements;
      if default == None || pending {
        return;
      }
      last := default;
      if sec > 0 {
        sec := sec - 1;
        timer := Some(made);
        timers := timers + {made};
        made := made + 1;
        return;
      }
      timer := None;
      BootDefault(start);
    }

    /** The timer fires: `default_timeout` runs, then the waiter is removed. */
    method Fire(t: nat, start: BootStart)
      requires Valid() && t in timers
      modifies this
      ensures Valid() && t !in timers && calm == old(calm)
      ensures enabled == old(enabled) && (!enabled ==> attempts == old(attempts))
        && (default == None || default == old(default))
      ensures old(default == None || pending) ==>
        timer == old(timer) && timers == old(timers) - {t} && pending == old(pending) && attempts == old(attempts)
      ensures calm ==> if old(sec) > 0 then timer.Some? && attempts == old(attempts) else attempts != old(attempts)
    {
      hide Wins, Replacements;
      ticks := ticks + 1;
      DefaultTimeout(start);
      timers := timers - {t};
    }

    /** `set_default` when there is a default already. */
    method Challenge(c: Candidate, p: int)
      requires Valid() && default.Some? && TEMP_USER <= p < DISABLED
      modifies this`offers, this`default, this`priority, this`sec
      ensures Valid() && offers == old(offers) + [Offer(c, p)]
      ensures default == if p < old(priority) then Some(c) else old(default)
      ensures priority == if p < old(priority) then p else old(priority)
    {
      hide Wins, Replacements, Right;
      Presented(offers, default.value, priority, Offer(c, p));
      offers := offers + [Offer(c, p)];
      if p < priority {
        FewReplacements(offers, c, p);
        default, priority := Some(c), p;
        sec := (sec + 2) % UINT;
      }
    }

    method Open(c: Candidate, p: int)
      requires Chosen() && default == None && TEMP_USER <= p < DISABLED
      modifies this`sec, this`default, this`priority, this`offers, this`limit, this`ticks
      ensures Chosen() && default == Some(c) && priority == p && offers == [Offer(c, p)] && Replacements(offers) == 0
      ensures sec == limit == config.timeoutSec && ticks == 0
    {
      hide Wins, Replacements, Right;
      WinsAlone(Offer(c, p));
      sec := config.timeoutSec;
      default, priority := Some(c), p;
      offers, limit, ticks := [Offer(c, p)], config.timeoutSec, 0;
    }

    /** `set_default` when there is no default yet. */
    method Fill(c: Candidate, p: int, start: BootStart)
      requires Valid() && default == None && TEMP_USER <= p < DISABLED && enabled
      modifies this
      ensures Valid() && enabled && calm == old(calm) && config == old(config) && temp == old(temp)
      ensures default == None || (default == Some(c) && offers == [Offer(c, p)])
      ensures limit == config.timeoutSec && (calm && limit > 0 && !pending ==> timer.Some?)
      ensures config.timeoutSec > 0 ==>
        default == Some(c) && priority == p && attempts == old(attempts) && pending == old(pending)
      ensures config.timeoutSec == 0 && old(pending) ==> attempts == old(attempts) && pending
      ensures config.timeoutSec == 0 && !old(pending) ==> Attempted(old(attempts), attempts, c)
      ensures p == PriorityOf(temp, config, c.device) ==> Now() == Present(old(Now()), Presentation(c, start))
    {
      hide Chosen, Replacements, PriorityOf;
      Open(c, p);
      DefaultTimeout(start);
    }

    /** `set_default` */
    method SetDefault(c: Candidate, start: BootStart) returns (ghost p: int)
      requires Valid()
      modifies this
      ensures Valid() && enabled == old(enabled) && calm == old(calm) && config == old(config) && temp == old(temp)
      ensures Now() == Present(old(Now()), Presentation(c, start)) && p == PriorityOf(temp, config, c.device)
      ensures default == None || default == old(default) || default == Some(c)
      ensures !enabled || p >= DISABLED ==> unchanged(this)
      ensures enabled && p < DISABLED && old(default.Some?) ==> offers == old(offers) + [Offer(c, p)]
      ensures enabled && p < DISABLED && old(default.Some?) ==>
        default == if p < old(priority) then Some(c) else old(default)
      ensures enabled && p < DISABLED && old(default.Some?) ==>
        priority == if p < old(priority) then p else old(priority)
      ensures enabled && p < DISABLED && old(default == None) ==> default == None || offers == [Offer(c, p)]
      ensures enabled && p < DISABLED && old(default == None) && config.timeoutSec > 0 ==>
        default == Some(c) && priority == p
      ensures enabled && p < DISABLED && (old(default.Some?) || config.timeoutSec > 0) ==>
        attempts == old(attempts) && pending == old(pending)
      ensures enabled && p < DISABLED && old(default == None) && config.timeoutSec == 0 && old(pending) ==>
        attempts == old(attempts) && pending
      ensures enabled && p < DISABLED && old(default == None) && config.timeoutSec == 0 && !old(pending) ==>
        Attempted(old(attempts), attempts, c)
    {
      hide HasPriority, PriorityOf, Chosen, Counting;
      var q := DefaultOptionPriority(c.device);
      PriorityUnique(temp, config, c.device, q);
      p := q;
      if !enabled || q >= DISABLED {
        return;
      }
      if default.Some? {
        Challenge(c, q);
      } else {
        Fill(c, q, start);
      }
    }

    /** `device_handler_cancel_default`; not `ok`: the timer it wants to remove is gone. */
    method CancelDefault() returns (ok: bool)
      requires Valid()
      modifies this`timer, this`timers, this`enabled, this`default, this`offers, this`pending, this`pendingIsDefault
      ensures ok <==> old(timer == None || timer.value in timers)
      ensures calm ==> ok
      ensures ok ==> Valid() && !enabled && default == None && timer == None
      ensures ok ==> pending == (old(pending) && !(old(default.Some?) && old(pendingIsDefault)))
      ensures !ok ==> unchanged(this)
    {
      hide Wins, Replacements, Right;
      if timer.Some? {
        if timer.value !in timers {
          return false;
        }
        timers := timers - {timer.value};
      }
      timer, enabled, ok := None, false, true;
      if default == None {
        return;
      }
      if pending && pendingIsDefault {
        // `boot_cancel` reports an error
        BootStatus(true);
        pending, pendingIsDefault := false, false;
      }
      default := None;
      offers := [];
    }

    /** `device_handler_apply_temp_autoboot`; `available` holds the first default option of each device that has one. */
    method ApplyTempAutoboot(o: AutobootOption, available: seq<Candidate>, starts: nat -> BootStart) returns (ok: bool)
      requires Valid()
      modifies this
      ensures ok ==> Valid()
      ensures calm == old(calm) && (calm ==> ok) && config == old(config)
      ensures !old(enabled) ==> ok && !enabled && attempts == old(attempts)
      ensures ok ==> enabled == old(enabled) && temp == Some(o)
      ensures default == None || default == old(default) || default.value in available
      ensures ok && old(enabled) && old(default.Some?) && !Matches(o, old(default.value.device)) ==>
        Rescanned(o, available, config, default, pending, old(attempts), attempts)
    {
      hide Chosen, Counting, Matches, FirstMatch;
      temp := Some(o);
      if !enabled || default == None || Matches(o, default.value.device) {
        return true;
      }
      ok := CancelDefault();
      if !ok {
        return;
      }
      enabled := true;
      ghost var busy := pending;
      var i := 0;
      while i < |available|
        invariant 0 <= i <= |available| && Valid() && enabled && calm == old(calm) && config == old(config)
          && temp == Some(o)
        invariant default == None || default.value in available
        invariant config.timeoutSec > 0 ==>
          IsFirst(o, available, i, default) && (default.Some? ==> priority == TEMP_USER)
        invariant old(attempts) <= attempts && (attempts == old(attempts) ==> pending == busy)
        invariant config.timeoutSec == 0 && !busy && attempts == old(attempts) ==> default == None
        invariant busy ==> attempts == old(attempts)
        invariant config.timeoutSec == 0 && !busy ==>
          IsFirst(o, available, i,
            if attempts == old(attempts) then None else Some(attempts[|old(attempts)|].candidate))
      {
        if Matches(o, available[i].device) {
          ghost var _ := SetDefault(available[i], starts(i));
        }
        i := i + 1;
      }
    }

    /** `device_handler_boot` */
    method ManualBoot(o: Option<Candidate>, changeDefault: bool, start: BootStart)
      requires Valid()
      modifies this`default, this`pending, this`pendingIsDefault, this`offers, this`calm
      ensures Valid() && attempts == old(attempts) && (default == None || default == old(default))
      ensures changeDefault ==> pending == start.Running? && !pendingIsDefault
      ensures calm <==> old(calm) && (timer == None || (!changeDefault && last.Some? && o != last))
    {
      hide Chosen, Replacements;
      if !changeDefault && last.Some? && o != last {
        return;
      }
      calm := calm && timer == None;
      // `boot_cancel` of a pending boot reports an error
      BootStatus(pending);
      BootStatus(start != Running(false));
      pending := start.Running?;
      pendingIsDefault := false;
    }

    /** `device_handler_remove`, as far as the default is concerned: the options go with their device. */
    method Withdraw(options: set<nat>) returns (ok: bool)
      requires Valid()
      modifies this
      ensures ok ==> Valid()
      ensures attempts == old(attempts) && calm == old(calm) && (calm ==> ok)
      ensures ok ==> (default.Some? ==> default.value.option !in options)
      ensures ok ==> default == (if old(default.Some? && default.value.option in options) then None else old(default))
      ensures ok ==> enabled == (old(enabled) && !old(default.Some? && default.value.option in options))
      ensures config == old(config) && temp == old(temp)
    {
      hide Chosen, Counting;
      ok := true;
      if default.Some? && default.value.option in options {
        ok := CancelDefault();
      }
    }

    /** The requery timeout: the same, but autoboot stays enabled. */
    method WithdrawForRequery(options: set<nat>) returns (ok: bool)
      requires Valid()
      modifies this
      ensures ok ==> Valid() && enabled == old(enabled)
      ensures attempts == old(attempts) && calm == old(calm) && (calm ==> ok)
      ensures ok ==> default == (if old(default.Some? && default.value.option in options) then None else old(default))
      ensures config == old(config) && temp == old(temp)
    {
      hide Chosen, Counting;
      var was := enabled;
      ok := Withdraw(options);
      if ok {
        enabled := was;
      }
    }

    /** `device_handler_reinit` (and `device_handler_update_config`, which sets a configuration first). */
    method Reinit(config: Config) returns (ok: bool)
      requires Valid()
      modifies this
      ensures ok ==> Valid() && !enabled && default == None && !pending
      ensures attempts == old(attempts) && calm == old(calm) && (calm ==> ok)
    {
      hide Chosen;
      this.config := config;
      ok := CancelDefault();
      if ok && pending {
        BootStatus(true);
        pending, pendingIsDefault := false, false;
      }
    }

    /** A boot task reports its progress. */
    method Report(error: bool)
      requires Valid()
      modifies this`pending, this`default, this`offers, this`calm
      ensures Valid() && (calm <==> old(calm) && !(error && timer.Some?))
        && (default == None || default == old(default))
    {
      hide Wins, Replacements, Right;
      calm := calm && !(error && timer.Some?);
      BootStatus(error);
    }

    /** Any run, up to the failure of an assertion; a default boot never follows once autoboot is off. */
    method Run(events: seq<Event>) returns (ok: bool)
      requires Valid()
      modifies this
      ensures ok ==> Valid()
      ensures !old(enabled) ==> attempts == old(attempts) && (ok ==> !enabled)
      ensures !ok ==> !calm
    {
      hide Chosen, Counting, Matches;
      ok := true;
      var n := 0;
      while n < |events|
        invariant 0 <= n <= |events| && ok && Valid()
        invariant !old(enabled) ==> !enabled && attempts == old(attempts)
      {
        match events[n] {
          case Found(c, start) => ghost var _ := SetDefault(c, start);
          case Tick(t, start) => if t in timers { Fire(t, start); }
          case Cancel => ok := CancelDefault();
          case Temporary(o, available, starts) => ok := ApplyTempAutoboot(o, available, starts);
          case Manual(o, asRoot, start) => ManualBoot(o, asRoot, start);
          case Status(error) => Report(error);
          case Removed(options) => ok := Withdraw(options);
          case Requeried(options) => ok := WithdrawForRequery(options);
          case Reconfigured(config) => ok := Reinit(config);
        }
        if !ok {
          return;
        }
        n := n + 1;
      }
    }
  }

  /** The timer that the handler remembers, and those that are registered. */
  datatype Countdown = Countdown(timer: Option<nat>, timers: set<nat>)

  /**
   A manual boot during any countdown. `booted`: the boot leaves the timer registered. `fired`: the timer
   fires and goes, but the handler still remembers it. So the next cancel fails, and changes nothing.
   */
  method ManualBootLosesTimer(a: Autoboot) returns (ok: bool, ghost booted: Countdown, ghost fired: Countdown)
    requires a.Valid() && a.calm && a.timer.Some?
    modifies a
    ensures booted == Countdown(old(a.timer), {old(a.timer.value)})
    ensures fired == Countdown(old(a.timer), {}) == Countdown(a.timer, a.timers)
    ensures !ok && a.pending && a.enabled == old(a.enabled) && a.attempts == old(a.attempts)
  {
    hide Wins, Replacements;
    a.ManualBoot(None, true, Running(false));
    booted := Countdown(a.timer, a.timers);
    a.Fire(a.timer.value, Refused);
    fired := Countdown(a.timer, a.timers);
    ok := a.CancelDefault();
  }
}
