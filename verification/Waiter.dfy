/**
 The event loop (lib/waiter/waiter.c): callbacks register and remove waiters of the
 very set that `waiter_poll` is walking. A callback is any sequence of such actions
 and a return value. A ghost log records what happens to every waiter; `Stage` reads
 the life of a waiter off the log alone.
 */
module Waiter {
  import opened Common

  datatype Kind = Io(fd: int, events: int) | Timer(due: int)
  datatype Waiter = Waiter(kind: Kind, active: bool)
  datatype PollFd = PollFd(fd: int, events: int)

  datatype Action = Register(kind: Kind) | Remove(id: nat)
  datatype Reaction = Reaction(actions: seq<Action>, rc: int)

  /** A callback: its waiter's kind, the waiters registered when it runs, how many were made by then, what it does. */
  datatype Call = Call(kind: Kind, registered: set<nat>, made: nat, reaction: Reaction)

  datatype Event =
    | Registered(id: nat)
    | Called(id: nat, call: Call)
    | Removed(id: nat)
    | Freed(id: nat)

  datatype Life = Unborn | Live | Dropped | Gone | Broken

  // --- the life of a waiter ---

  /** A waiter is called and removed only while live, and freed once, after its removal. */
  ghost function Next(life: Life, e: Event): (r: Life) {
    match e
    case Registered(_) => if life == Unborn then Live else Broken
    case Called(_, _) => if life == Live then Live else Broken
    case Removed(_) => if life == Live then Dropped else Broken
    case Freed(_) => if life == Dropped then Gone else Broken
  }

  ghost function Stage(log: seq<Event>, id: nat): (r: Life) {
    if log == [] then Unborn
    else
      var before := Stage(log[..|log| - 1], id);
      var e := log[|log| - 1];
      if e.id == id then Next(before, e) else before
  }

  /** In an unbroken life, only the freeing may follow the removal: no call does. */
  lemma {:induction false} AfterRemoval(log: seq<Event>, i: nat)
    requires i < |log| && log[i].Removed? && Stage(log, log[i].id) != Broken
    ensures Stage(log, log[i].id) == Dropped || Stage(log, log[i].id) == Gone
    ensures forall j :: i < j < |log| && log[j].id == log[i].id ==> log[j].Freed?
  {
    var before := log[..|log| - 1];
    if i < |log| - 1 {
      AfterRemoval(before, i);
      forall j | i < j < |log| && log[j].id == log[i].id ensures log[j].Freed? {
        if j < |log| - 1 { assert log[j] == before[j]; }
      }
    }
  }

  /** Nothing follows the freeing, which therefore happens once. */
  lemma {:induction false} AfterFreeing(log: seq<Event>, i: nat)
    requires i < |log| && log[i].Freed? && Stage(log, log[i].id) != Broken
    ensures Stage(log, log[i].id) == Gone
    ensures forall j :: i < j < |log| ==> log[j].id != log[i].id
  {
    var before := log[..|log| - 1];
    if i < |log| - 1 {
      AfterFreeing(before, i);
      forall j | i < j < |log| ensures log[j].id != log[i].id {
        if j < |log| - 1 { assert log[j] == before[j]; }
      }
    }
  }

  ghost function Calls(log: seq<Event>, id: nat): (n: nat) {
    if log == [] then 0
    else Calls(log[..|log| - 1], id) + if log[|log| - 1].Called? && log[|log| - 1].id == id then 1 else 0
  }

  lemma Logged(log: seq<Event>, e: Event)
    ensures forall id: nat :: Stage(log + [e], id) == if e.id == id then Next(Stage(log, id), e) else Stage(log, id)
    ensures forall id: nat :: Calls(log + [e], id) == Calls(log, id) + if e.Called? && e.id == id then 1 else 0
  {
    assert (log + [e])[..|log|] == log;
  }

  /** Nothing is freed between the two logs. */
  ghost predicate Holds(before: seq<Event>, after: seq<Event>) {
    && before <= after
    && forall id: nat ::
         && (Stage(before, id) == Live ==> Stage(after, id) == Live || Stage(after, id) == Dropped)
         && (Stage(before, id) == Dropped ==> Stage(after, id) == Dropped)
         && (Stage(before, id) == Gone <==> Stage(after, id) == Gone)
  }

  datatype Moment = Moment(made: seq<Waiter>, waiters: seq<nat>, log: seq<Event>)

  /** Whatever callbacks do: nothing is freed, and no waiter of before is registered again. */
  ghost predicate Since(a: Moment, b: Moment) {
    && a.log <= b.log && Holds(a.log, b.log) && |a.made| <= |b.made|
    && (forall id: nat :: id < |a.made| ==> b.made[id].kind == a.made[id].kind)
    && (forall id: nat :: id < |a.made| && id in b.waiters ==> id in a.waiters)
  }

  /** No callback is made between the two logs. */
  ghost predicate Quiet(before: seq<Event>, after: seq<Event>) {
    && before <= after
    && (forall id: nat :: Calls(after, id) == Calls(before, id))
    && (forall j :: |before| <= j < |after| ==> !after[j].Called?)
  }

  lemma SinceRefl(a: Moment)
    ensures Since(a, a) && Quiet(a.log, a.log)
  {
  }

  lemma SinceTrans(a: Moment, b: Moment, c: Moment)
    requires Since(a, b) && Since(b, c)
    ensures Since(a, c)
    ensures Quiet(a.log, b.log) && Quiet(b.log, c.log) ==> Quiet(a.log, c.log)
  {
  }

  // --- what callbacks do ---

  /** Every waiter is registered when it is removed: the assertion in `waiter_remove` holds throughout. */
  ghost predicate Tidy(registered: set<nat>, made: nat, actions: seq<Action>)
    decreases |actions|
  {
    actions == [] ||
    match actions[0]
    case Register(_) => Tidy(registered + {made}, made + 1, actions[1..])
    case Remove(id) => id in registered && Tidy(registered - {id}, made, actions[1..])
  }

  /** A timer is removed after its callback, and so is an I/O waiter whose callback returns non-zero. */
  ghost predicate OneShot(kind: Kind, reaction: Reaction) {
    kind.Timer? || reaction.rc != 0
  }

  ghost predicate Behaves(id: nat, call: Call) {
    && Tidy(call.registered, call.made, call.reaction.actions)
    && (OneShot(call.kind, call.reaction) ==> Remove(id) !in call.reaction.actions)
  }

  ghost predicate AllBehave(before: seq<Event>, after: seq<Event>) {
    forall j :: |before| <= j < |after| && after[j].Called? ==> Behaves(after[j].id, after[j].call)
  }

  /** The callback of another waiter removed this one. */
  ghost predicate OtherRemoved(before: seq<Event>, after: seq<Event>, id: nat) {
    exists j :: |before| <= j < |after| && after[j].Called? && after[j].id != id
      && Remove(id) in after[j].call.reaction.actions
  }

  /** A waiter that is registered stays so through its own tidy callback exactly if the callback does not remove it. */
  lemma {:induction false} SelfRemoval(registered: set<nat>, made: nat, actions: seq<Action>, id: nat)
    requires id in registered && id < made
    ensures Tidy(registered, made, actions + [Remove(id)]) <==>
      Tidy(registered, made, actions) && Remove(id) !in actions
    decreases |actions|
  {
    if actions != [] {
      assert (actions + [Remove(id)])[1..] == actions[1..] + [Remove(id)];
      match actions[0]
      case Register(_) => SelfRemoval(registered + {made}, made + 1, actions[1..], id);
      case Remove(other) =>
        if other == id {
          NeverBack(registered - {id}, made, actions[1..], id);
        } else {
          SelfRemoval(registered - {other}, made, actions[1..], id);
        }
    } else {
      assert (actions + [Remove(id)])[1..] == [];
    }
  }

  /** A waiter that was removed cannot be removed again. */
  lemma {:induction false} NeverBack(registered: set<nat>, made: nat, actions: seq<Action>, id: nat)
    requires id !in registered && id < made
    ensures !Tidy(registered, made, actions + [Remove(id)])
    decreases |actions|
  {
    var all := actions + [Remove(id)];
    if actions != [] {
      assert all[1..] == actions[1..] + [Remove(id)];
      match actions[0]
      case Register(_) => NeverBack(registered + {made}, made + 1, actions[1..], id);
      case Remove(other) => NeverBack(registered - {other}, made, actions[1..], id);
    }
  }

  /** From `a` to `b`, exactly one callback ran. */
  ghost predicate Dispatched(a: Moment, b: Moment, id: nat, call: Call) {
    && Since(a, b) && |a.log| < |b.log| && b.log[|a.log|] == Called(id, call)
    && (forall j :: |a.log| < j < |b.log| ==> !b.log[j].Called?)
    && (forall x: nat :: Calls(b.log, x) == Calls(a.log, x) + if x == id then 1 else 0)
    && (forall x: nat :: x in a.waiters && x !in b.waiters ==> x == id || Remove(x) in call.reaction.actions)
  }

  lemma CalledStep(a: Moment, id: nat, call: Call)
    requires Stage(a.log, id) == Live
    ensures forall x :: Stage(a.log + [Called(id, call)], x) == Stage(a.log, x)
    ensures Dispatched(a, a.(log := a.log + [Called(id, call)]), id, call)
  {
    hide Stage, Calls;
    Logged(a.log, Called(id, call));
  }

  lemma DispatchedLater(a: Moment, b: Moment, c: Moment, id: nat, call: Call)
    requires Dispatched(a, b, id, call) && b.waiters == a.waiters
    requires Since(b, c) && Quiet(b.log, c.log)
    requires forall x: nat :: x in b.waiters && x !in c.waiters ==> x == id || Remove(x) in call.reaction.actions
    ensures Dispatched(a, c, id, call)
  {
    hide Stage, Calls, Holds;
    SinceTrans(a, b, c);
    assert b.log <= c.log;
    forall j | |a.log| < j < |c.log| ensures !c.log[j].Called? {
      if j < |b.log| { assert c.log[j] == b.log[j]; }
    }
  }

  // --- a poll, between two moments ---

  ghost predicate CalledOnce(a: Moment, b: Moment, id: nat) {
    Calls(b.log, id) == Calls(a.log, id) + 1
  }

  ghost predicate NotCalled(a: Moment, b: Moment, id: nat) {
    Calls(b.log, id) == Calls(a.log, id)
  }

  /** Only `done` had their turn; whoever left the set was called or was removed by someone else's callback. */
  ghost predicate Polled(a: Moment, b: Moment, done: seq<nat>) {
    && Since(a, b)
    && (forall id: nat :: NotCalled(a, b, id) || (CalledOnce(a, b, id) && id in done))
    && (forall id: nat :: id in a.waiters && id !in b.waiters ==>
      CalledOnce(a, b, id) || OtherRemoved(a.log, b.log, id))
  }

  /** A waiter had its turn: if there was reason to, it was called, unless another callback had removed it. */
  ghost predicate Turn(a: Moment, b: Moment, id: nat, wake: bool) {
    if wake then CalledOnce(a, b, id) || OtherRemoved(a.log, b.log, id) else NotCalled(a, b, id)
  }

  lemma PolledNone(a: Moment)
    ensures Polled(a, a, []) && AllBehave(a.log, a.log)
  {
  }

  lemma PolledMore(a: Moment, b: Moment, done: seq<nat>, all: seq<nat>)
    requires Polled(a, b, done) && done <= all
    ensures Polled(a, b, all)
  {
  }

  /** A waiter is passed over. */
  lemma PolledSkip(a: Moment, b: Moment, done: seq<nat>, id: nat)
    requires Polled(a, b, done) && id in a.waiters && id !in done
    ensures Since(a, b)
    ensures Polled(a, b, done + [id])
    ensures Turn(a, b, id, false)
    ensures id !in b.waiters ==> Turn(a, b, id, true)
  {
    hide Stage, Calls, Since;
  }

  lemma OtherStill(a: Moment, b: Moment, c: Moment, x: nat)
    requires Since(b, c) && OtherRemoved(a.log, b.log, x)
    ensures OtherRemoved(a.log, c.log, x)
  {
    hide Stage, Calls;
    var j :| |a.log| <= j < |b.log| && b.log[j].Called? && b.log[j].id != x
      && Remove(x) in b.log[j].call.reaction.actions;
    assert c.log[j] == b.log[j];
  }

  /** A waiter is called. */
  lemma PolledStep(a: Moment, b: Moment, c: Moment, done: seq<nat>, id: nat, call: Call)
    requires Polled(a, b, done) && Dispatched(b, c, id, call) && id !in done && id in b.waiters
    ensures Polled(a, c, done + [id])
    ensures AllBehave(a.log, c.log) <==> AllBehave(a.log, b.log) && Behaves(id, call)
    ensures Turn(a, c, id, true)
  {
    hide Stage, Calls, Holds, Behaves;
    SinceTrans(a, b, c);
    assert b.log <= c.log;
    assert c.log[|b.log|] == Called(id, call);
    forall x: nat | x in a.waiters && x !in c.waiters ensures CalledOnce(a, c, x) || OtherRemoved(a.log, c.log, x) {
      if x in b.waiters {
        assert x == id || Remove(x) in call.reaction.actions;
      } else if OtherRemoved(a.log, b.log, x) {
        OtherStill(a, b, c, x);
      }
    }
    forall x: nat ensures NotCalled(a, c, x) || (CalledOnce(a, c, x) && x in done + [id]) {
      assert NotCalled(a, b, x) || (CalledOnce(a, b, x) && x in done);
    }
    if AllBehave(a.log, c.log) {
      forall j | |a.log| <= j < |b.log| && b.log[j].Called? ensures Behaves(b.log[j].id, b.log[j].call) {
        assert c.log[j] == b.log[j];
      }
    }
  }

  lemma TurnKept(a: Moment, b: Moment, c: Moment, x: nat, wake: bool, id: nat, call: Call)
    requires Turn(a, b, x, wake) && Dispatched(b, c, id, call) && x != id
    ensures Turn(a, c, x, wake)
  {
    hide Stage, Calls, Since;
    if wake && OtherRemoved(a.log, b.log, x) {
      OtherStill(a, b, c, x);
    }
  }

  lemma KindKept(a: Moment, b: Moment, id: nat)
    requires Since(a, b) && id < |a.made|
    ensures id < |b.made| && b.made[id].kind == a.made[id].kind
  {
  }

  lemma NoneBack(a: Moment, b: Moment, c: Moment, id: nat, call: Call)
    requires Since(a, b) && Dispatched(b, c, id, call)
    ensures forall x: nat :: x < |a.made| && x in c.waiters ==> x in b.waiters
  {
  }

  lemma PolledMeans(a: Moment, b: Moment, done: seq<nat>)
    requires Polled(a, b, done)
    ensures forall id: nat :: NotCalled(a, b, id) || (CalledOnce(a, b, id) && id in done)
    ensures forall id: nat :: id in a.waiters && id !in b.waiters ==>
      CalledOnce(a, b, id) || OtherRemoved(a.log, b.log, id)
    ensures a.log <= b.log && |a.made| <= |b.made|
  {
  }

  lemma TurnFreed(a: Moment, b: Moment, c: Moment)
    requires a.log <= b.log && Quiet(b.log, c.log)
    ensures AllBehave(a.log, b.log) ==> AllBehave(a.log, c.log)
    ensures forall id: nat :: NotCalled(a, b, id) ==> NotCalled(a, c, id)
    ensures forall id: nat :: CalledOnce(a, b, id) ==> CalledOnce(a, c, id)
    ensures forall id: nat :: OtherRemoved(a.log, b.log, id) ==> OtherRemoved(a.log, c.log, id)
    ensures forall id: nat, wake: bool :: Turn(a, b, id, wake) ==> Turn(a, c, id, wake)
  {
    hide Stage, Calls, Behaves;
    assert b.log <= c.log;
    forall id: nat | OtherRemoved(a.log, b.log, id) ensures OtherRemoved(a.log, c.log, id) {
      var j :| |a.log| <= j < |b.log| && b.log[j].Called? && b.log[j].id != id
        && Remove(id) in b.log[j].call.reaction.actions;
      assert c.log[j] == b.log[j];
    }
    if AllBehave(a.log, b.log) {
      forall j | |a.log| <= j < |c.log| && c.log[j].Called? ensures Behaves(c.log[j].id, c.log[j].call) {
        if j < |b.log| { assert c.log[j] == b.log[j]; }
      }
    }
  }

  /** `poll` may sleep up to the first timer, in whole milliseconds, or for ever if there is none. */
  ghost predicate WakesInTime(made: seq<Waiter>, timers: seq<nat>, now: int, ms: int)
    requires Positive(made, timers)
  {
    && (ms == -1 <==> timers == [])
    && ms >= -1
    && (forall id :: id in timers ==> ms == 0 || now + 1000 * ms <= made[id].kind.due)
    && (timers != [] ==> exists id :: id in timers && made[id].kind.due < now + 1000 * (ms + 1))
  }

  // --- the set ---

  /** The waiters of one kind, in order of registration. */
  ghost function Chosen(made: seq<Waiter>, waiters: seq<nat>, timers: bool): (r: seq<nat>) {
    if waiters == [] then []
    else
      var last := waiters[|waiters| - 1];
      Chosen(made, waiters[..|waiters| - 1], timers) +
      if last < |made| && made[last].kind.Timer? == timers then [last] else []
  }

  lemma ChosenNone(made: seq<Waiter>)
    ensures Chosen(made, [], false) == [] == Chosen(made, [], true)
    ensures Earliest(made, [], 0)
  {
  }

  lemma ChosenStep(made: seq<Waiter>, waiters: seq<nat>, i: nat)
    requires i < |waiters| && waiters[i] < |made|
    ensures Chosen(made, waiters[..i + 1], false) ==
      Chosen(made, waiters[..i], false) + if made[waiters[i]].kind.Timer? then [] else [waiters[i]]
    ensures Chosen(made, waiters[..i + 1], true) ==
      Chosen(made, waiters[..i], true) + if made[waiters[i]].kind.Timer? then [waiters[i]] else []
  {
    assert waiters[..i + 1][..i] == waiters[..i];
  }

  lemma {:induction false} ChosenAre(made: seq<Waiter>, waiters: seq<nat>, timers: bool)
    requires Distinct(waiters)
    ensures Distinct(Chosen(made, waiters, timers))
    ensures forall id :: id in Chosen(made, waiters, timers) <==>
      id in waiters && id < |made| && made[id].kind.Timer? == timers
  {
    if waiters != [] {
      ChosenAre(made, waiters[..|waiters| - 1], timers);
      assert waiters == waiters[..|waiters| - 1] + [waiters[|waiters| - 1]];
    }
  }

  ghost predicate Polls(p: PollFd, made: seq<Waiter>, id: nat) {
    id < |made| && made[id].kind == Io(p.fd, p.events)
  }

  ghost predicate Due(made: seq<Waiter>, id: nat, now: int) {
    id < |made| && made[id].kind.Timer? && made[id].kind.due <= now
  }

  /** The clock never stands at zero, which marks the absence of a timeout. */
  ghost predicate Positive(made: seq<Waiter>, timers: seq<nat>) {
    forall id :: id in timers ==> id < |made| && made[id].kind.Timer? && made[id].kind.due > 0
  }

  /** `next` is when the first timer is due, 0 if there is none. */
  ghost predicate Earliest(made: seq<Waiter>, timers: seq<nat>, next: int) {
    Positive(made, timers) ==>
      && (timers == [] ==> next == 0)
      && (timers != [] ==> exists id :: id in timers && made[id].kind.due == next)
      && (forall id :: id in timers ==> next <= made[id].kind.due)
  }

  lemma EarliestStep(made: seq<Waiter>, timers: seq<nat>, next: int, id: nat)
    requires Earliest(made, timers, next) && id < |made| && made[id].kind.Timer?
    ensures Earliest(made, timers + [id], if next == 0 || made[id].kind.due < next then made[id].kind.due else next)
  {
    var all := timers + [id];
    if Positive(made, all) {
      forall x | x in timers ensures x in all {}
      assert id in all && Positive(made, timers);
      if timers != [] && next <= made[id].kind.due {
        var x :| x in timers && made[x].kind.due == next;
        assert x in all;
      }
    }
  }

  ghost function Elements(s: seq<nat>): (r: set<nat>)
    ensures forall x :: x in r <==> x in s
  {
    set x | x in s
  }

  /** The others stay, in their order. */
  ghost predicate TakenOut(before: seq<nat>, after: seq<nat>, id: nat) {
    exists i :: 0 <= i < |before| && before[i] == id && after == before[..i] + before[i + 1..]
  }

  class WaitSet {
    /** Every waiter ever made; a waiter's identity is its position here. */
    var made: seq<Waiter>
    var waiters: seq<nat>
    var waitersChanged: bool
    var nextTimeout: int
    var pollFds: seq<PollFd>
    var ioWaiters: seq<nat>
    var timeWaiters: seq<nat>
    var freeList: seq<nat>
    ghost var log: seq<Event>

    constructor ()
      ensures Valid() && log == []
    {
      made, waiters, waitersChanged, nextTimeout := [], [], false, 0;
      pollFds, ioWaiters, timeWaiters, freeList, log := [], [], [], [], [];
    }

    /** Holds even while a callback runs. */
    ghost predicate Sane()
      reads this
    {
      && Distinct(waiters) && Distinct(freeList)
      && (forall id: nat :: Stage(log, id) == Live <==> id in waiters)
      && (forall id: nat :: Stage(log, id) == Dropped <==> id in freeList)
      && (forall id: nat :: Stage(log, id) == Unborn <==> id >= |made|)
      && (forall id: nat :: Stage(log, id) != Broken)
      && (forall id: nat :: id < |made| ==> (made[id].active <==> id in waiters))
    }

    /** Holds between polls. */
    ghost predicate Valid()
      reads this
    {
      && Sane() && |pollFds| == |ioWaiters|
      && (!waitersChanged ==> made == [] && ioWaiters == [] && timeWaiters == [] && nextTimeout == 0)
    }

    /** `waiter_new` and its two callers. */
    method New(kind: Kind) returns (id: nat)
      requires Sane()
      modifies this`made, this`waiters, this`waitersChanged, this`log
      ensures Sane() && waitersChanged && id == |old(made)| && made == old(made) + [Waiter(kind, true)]
      ensures waiters == old(waiters) + [id] && log == old(log) + [Registered(id)]
    {
      hide Stage, Calls;
      id := |made|;
      assert Stage(log, id) == Unborn;
      waitersChanged := true;
      waiters := waiters + [id];
      made := made + [Waiter(kind, true)];
      Logged(log, Registered(id));
      log := log + [Registered(id)];
    }

    /** `waiter_remove`; not `ok` is the failed assertion. */
    method Remove(id: nat) returns (ok: bool)
      requires Sane()
      modifies this`made, this`waiters, this`waitersChanged, this`freeList, this`log
      ensures Sane()
      ensures ok <==> id in old(waiters)
      ensures ok ==> id < |old(made)| && made == old(made)[id := Waiter(old(made)[id].kind, false)] && waitersChanged
      ensures ok ==> (forall x :: x in waiters <==> x in old(waiters) && x != id) && log == old(log) + [Removed(id)]
      ensures ok ==> TakenOut(old(waiters), waiters, id) && freeList == [id] + old(freeList)
      ensures !ok ==> unchanged(this)
    {
      hide Stage, Calls;
      var i := 0;
      while i < |waiters|
        invariant 0 <= i <= |waiters| && forall k :: 0 <= k < i ==> waiters[k] != id
      {
        if waiters[i] == id {
          break;
        }
        i := i + 1;
      }
      if i == |waiters| {
        return false;
      }
      assert Stage(log, id) == Live;
      assert TakenOut(waiters, waiters[..i] + waiters[i + 1..], id);
      waiters := waiters[..i] + waiters[i + 1..];
      waitersChanged := true;
      made := made[id := made[id].(active := false)];
      freeList := [id] + freeList;
      Logged(log, Removed(id));
      log := log + [Removed(id)];
      ok := true;
    }

    ghost function Now(): (m: Moment)
      reads this
    {
      Moment(made, waiters, log)
    }

    method Act(action: Action) returns (ok: bool)
      requires Sane()
      modifies this`made, this`waiters, this`waitersChanged, this`freeList, this`log
      ensures Sane() && Since(old(Now()), Now()) && Quiet(old(log), log)
      ensures (old(waitersChanged) ==> waitersChanged) && (made == old(made) || waitersChanged)
      ensures ok <==> action.Register? || action.id in old(waiters)
      ensures ok && action.Register? ==>
        |made| == |old(made)| + 1 && Elements(waiters) == Elements(old(waiters)) + {|old(made)|}
      ensures ok && action.Remove? ==>
        |made| == |old(made)| && Elements(waiters) == Elements(old(waiters)) - {action.id}
      ensures !ok ==> Elements(waiters) == Elements(old(waiters))
    {
      hide Stage, Calls;
      match action {
        case Register(kind) =>
          Logged(log, Registered(|made|));
          var _ := New(kind);
          ok := true;
        case Remove(id) =>
          Logged(log, Removed(id));
          ok := Remove(id);
      }
    }

    /** The body of a callback. */
    method Perform(actions: seq<Action>) returns (ok: bool)
      requires Sane()
      modifies this`made, this`waiters, this`waitersChanged, this`freeList, this`log
      ensures Sane() && Since(old(Now()), Now()) && Quiet(old(log), log)
      ensures (old(waitersChanged) ==> waitersChanged) && (made == old(made) || waitersChanged)
      ensures ok <==> Tidy(Elements(old(waiters)), |old(made)|, actions)
      ensures forall id: nat :: id in old(waiters) && id !in waiters ==> Action.Remove(id) in actions
      ensures ok ==> forall id: nat :: id in old(waiters) && Action.Remove(id) in actions ==> id !in waiters
    {
      hide Stage, Calls, Holds;
      ok := true;
      SinceRefl(Now());
      assert forall id :: id in waiters ==> id < |made|;
      var i := 0;
      while i < |actions|
        invariant 0 <= i <= |actions|
        invariant Sane() && Since(old(Now()), Now()) && Quiet(old(log), log)
        invariant (old(waitersChanged) ==> waitersChanged) && (made == old(made) || waitersChanged)
        invariant Tidy(Elements(old(waiters)), |old(made)|, actions) <==> Tidy(Elements(waiters), |made|, actions[i..])
        invariant forall id: nat :: id in old(waiters) ==> (id in waiters <==> Action.Remove(id) !in actions[..i])
      {
        assert actions[i..][0] == actions[i] && actions[i..][1..] == actions[i + 1..];
        ghost var m := Now();
        ok := Act(actions[i]);
        SinceTrans(old(Now()), m, Now());
        if !ok {
          return;
        }
        i := i + 1;
      }
    }

    /** One callback, and the removal that follows it at once for timers and for I/O waiters that return non-zero. */
    method Dispatch(id: nat, reaction: Reaction) returns (ok: bool)
      requires Sane() && id in waiters
      modifies this`made, this`waiters, this`waitersChanged, this`freeList, this`log
      ensures Sane() && (old(waitersChanged) ==> waitersChanged)
      ensures id < |old(made)| && var call := Call(old(made)[id].kind, Elements(old(waiters)), |old(made)|, reaction);
        && Dispatched(old(Now()), Now(), id, call)
        && (ok <==> Behaves(id, call))
        && (ok && OneShot(call.kind, reaction) ==> id !in waiters)
    {
      hide Stage, Calls, Holds, Tidy;
      assert Stage(log, id) == Live;
      ghost var call := Call(made[id].kind, Elements(waiters), |made|, reaction);
      ghost var m0 := Now();
      CalledStep(m0, id, call);
      log := log + [Called(id, call)];
      ghost var m1 := Now();
      ok := Perform(reaction.actions);
      DispatchedLater(m0, m1, Now(), id, call);
      if ok && (made[id].kind.Timer? || reaction.rc != 0) {
        ghost var m2 := Now();
        ok := Act(Action.Remove(id));
        SinceTrans(m1, m2, Now());
        DispatchedLater(m0, m1, Now(), id, call);
      }
    }

    /** `waiter->active`, read through a snapshot: the waiter must not have been freed. */
    method IsActive(id: nat) returns (active: bool)
      requires Sane() && (Stage(log, id) == Live || Stage(log, id) == Dropped)
      ensures active <==> id in waiters
    {
      active := made[id].active;
    }

    lemma AllMade()
      requires Sane()
      ensures forall k :: 0 <= k < |waiters| ==> waiters[k] < |made|
      ensures forall id :: id in waiters ==> id < |made|
      ensures made == [] ==> waiters == []
    {
      forall k | 0 <= k < |waiters| ensures waiters[k] < |made| {
        assert Stage(log, waiters[k]) == Live;
      }
      if waiters != [] { assert waiters[0] < |made|; }
    }

    /** `update_waiters`: copy the waiters apart by kind, and find the next expiry. */
    method UpdateWaiters()
      requires Valid()
      modifies this`pollFds, this`ioWaiters, this`timeWaiters, this`nextTimeout
      ensures Valid()
      ensures ioWaiters == Chosen(made, waiters, false) && timeWaiters == Chosen(made, waiters, true)
      ensures forall k :: 0 <= k < |ioWaiters| ==> Polls(pollFds[k], made, ioWaiters[k])
      ensures Earliest(made, timeWaiters, nextTimeout)
    {
      hide Stage, Chosen, Earliest;
      ChosenNone(made);
      AllMade();
      if !waitersChanged {
        return;
      }
      hide Sane;
      pollFds, ioWaiters, timeWaiters, nextTimeout := [], [], [], 0;
      assert waiters[..0] == [];
      var i := 0;
      while i < |waiters|
        invariant 0 <= i <= |waiters| && |pollFds| == |ioWaiters|
        invariant ioWaiters == Chosen(made, waiters[..i], false) && timeWaiters == Chosen(made, waiters[..i], true)
        invariant forall k :: 0 <= k < |ioWaiters| ==> Polls(pollFds[k], made, ioWaiters[k])
        invariant Earliest(made, timeWaiters, nextTimeout)
        invariant forall k :: 0 <= k < |waiters| ==> waiters[k] < |made|
      {
        ChosenStep(made, waiters, i);
        match made[waiters[i]].kind {
          case Io(fd, events) =>
            pollFds := pollFds + [PollFd(fd, events)];
            ioWaiters := ioWaiters + [waiters[i]];
          case Timer(due) =>
            EarliestStep(made, timeWaiters, nextTimeout, waiters[i]);
            if nextTimeout == 0 || due < nextTimeout {
              nextTimeout := due;
            }
            timeWaiters := timeWaiters + [waiters[i]];
        }
        i := i + 1;
      }
      assert waiters[..i] == waiters;
    }

    lemma InSnapshot(a: Moment, id: nat)
      requires Sane() && Since(a, Now()) && Stage(a.log, id) == Live
      ensures (Stage(log, id) == Live || Stage(log, id) == Dropped) && id < |made|
    {
    }

    /** The walk over the I/O waiters in `waiter_poll`; the n-th callback of the poll behaves as `script(n)` says. */
    method PollIo(ghost a: Moment, revents: nat -> bool, script: nat -> Reaction) returns (ok: bool, n: nat)
      requires Sane() && Now() == a && Distinct(ioWaiters) && forall k :: 0 <= k < |ioWaiters| ==>
        ioWaiters[k] in waiters
      requires forall k :: 0 <= k < |ioWaiters| ==> Stage(a.log, ioWaiters[k]) == Live
      modifies this`made, this`waiters, this`waitersChanged, this`freeList, this`log
      ensures Sane() && (old(waitersChanged) ==> waitersChanged) && Polled(a, Now(), ioWaiters)
      ensures ok <==> AllBehave(a.log, log)
      ensures ok ==> forall k :: 0 <= k < |ioWaiters| ==> Turn(a, Now(), ioWaiters[k], revents(k))
      ensures ioWaiters == [] ==> made == old(made)
    {
      hide Stage, Calls, Since, Dispatched, Polled, Turn, Behaves, AllBehave;
      ok, n := true, 0;
      PolledNone(a);
      var i := 0;
      while i < |ioWaiters|
        invariant 0 <= i <= |ioWaiters| && (i == 0 ==> made == old(made)) && ok && AllBehave(a.log, log)
        invariant Sane() && (old(waitersChanged) ==> waitersChanged) && Polled(a, Now(), ioWaiters[..i])
        invariant forall k :: 0 <= k < i ==> Turn(a, Now(), ioWaiters[k], revents(k))
      {
        ghost var b := Now();
        var id := ioWaiters[i];
        PolledSkip(a, b, ioWaiters[..i], id);
        assert ioWaiters[..i + 1] == ioWaiters[..i] + [id];
        InSnapshot(a, id);
        var active := IsActive(id);
        if active && revents(i) {
          ghost var call := Call(made[id].kind, Elements(waiters), |made|, script(n));
          ok := Dispatch(id, script(n));
          n := n + 1;
          PolledStep(a, b, Now(), ioWaiters[..i], id, call);
          forall k | 0 <= k < i ensures Turn(a, Now(), ioWaiters[k], revents(k)) {
            TurnKept(a, b, Now(), ioWaiters[k], revents(k), id, call);
          }
          if !ok {
            PolledMore(a, Now(), ioWaiters[..i + 1], ioWaiters);
            return;
          }
        }
        i := i + 1;
      }
      assert ioWaiters[..i] == ioWaiters;
    }

    /** The walk over the timers; every timer that is due leaves the set. */
    method PollTimers(ghost a: Moment, ghost done: seq<nat>, now: int, script: nat -> Reaction, calls: nat)
        returns (ok: bool)
      requires Sane() && Polled(a, Now(), done) && AllBehave(a.log, log) && Distinct(timeWaiters)
      requires forall id: nat :: Stage(a.log, id) == Live ==> id < |a.made|
      requires forall k :: 0 <= k < |timeWaiters| ==> Stage(a.log, timeWaiters[k]) == Live
      requires forall k :: 0 <= k < |timeWaiters| ==> timeWaiters[k] in a.waiters && timeWaiters[k] !in done
      requires forall k :: 0 <= k < |timeWaiters| ==> timeWaiters[k] < |a.made| && a.made[timeWaiters[k]].kind.Timer?
      modifies this`made, this`waiters, this`waitersChanged, this`freeList, this`log
      ensures Sane() && (old(waitersChanged) ==> waitersChanged) && Polled(a, Now(), done + timeWaiters)
      ensures ok <==> AllBehave(a.log, log)
      ensures ok ==> forall k :: 0 <= k < |timeWaiters| ==>
        Turn(a, Now(), timeWaiters[k], Due(a.made, timeWaiters[k], now))
      ensures ok ==> forall k :: 0 <= k < |timeWaiters| && Due(a.made, timeWaiters[k], now) ==>
        timeWaiters[k] !in waiters
      ensures ok ==> forall x: nat, wake: bool :: x in done && Turn(a, old(Now()), x, wake) ==> Turn(a, Now(), x, wake)
      ensures timeWaiters == [] ==> made == old(made)
    {
      hide Stage, Calls, Since, Dispatched, Polled, Turn, Behaves, AllBehave;
      ok := true;
      var i, n := 0, calls;
      assert done + timeWaiters[..0] == done;
      while i < |timeWaiters|
        invariant 0 <= i <= |timeWaiters| && (i == 0 ==> made == old(made)) && ok && AllBehave(a.log, log)
        invariant Sane() && (old(waitersChanged) ==> waitersChanged) && Polled(a, Now(), done + timeWaiters[..i])
        invariant forall k :: 0 <= k < i ==> Turn(a, Now(), timeWaiters[k], Due(a.made, timeWaiters[k], now))
        invariant forall k :: 0 <= k < i && Due(a.made, timeWaiters[k], now) ==> timeWaiters[k] !in waiters
        invariant forall x: nat, wake: bool :: x in done && Turn(a, old(Now()), x, wake) ==> Turn(a, Now(), x, wake)
      {
        ghost var b := Now();
        var id := timeWaiters[i];
        PolledSkip(a, b, done + timeWaiters[..i], id);
        assert done + timeWaiters[..i + 1] == done + timeWaiters[..i] + [id];
        InSnapshot(a, id);
        KindKept(a, b, id);
        var active := IsActive(id);
        if active && made[id].kind.due <= now {
          ghost var call := Call(made[id].kind, Elements(waiters), |made|, script(n));
          ok := Dispatch(id, script(n));
          n := n + 1;
          PolledStep(a, b, Now(), done + timeWaiters[..i], id, call);
          forall x: nat, wake: bool | x != id && Turn(a, b, x, wake) ensures Turn(a, Now(), x, wake) {
            TurnKept(a, b, Now(), x, wake, id, call);
          }
          NoneBack(a, b, Now(), id, call);
          if !ok {
            PolledMore(a, Now(), done + timeWaiters[..i + 1], done + timeWaiters);
            return;
          }
        }
        i := i + 1;
      }
      assert timeWaiters[..i] == timeWaiters;
    }

    /** The end of `waiter_poll`: free whatever was removed. */
    method FreeRemoved()
      requires Sane()
      modifies this`freeList, this`log
      ensures Sane() && freeList == [] && Quiet(old(log), log)
      ensures forall id: nat :: Stage(log, id) == if id in old(freeList) then Gone else Stage(old(log), id)
    {
      hide Stage, Calls;
      var i := 0;
      while i < |freeList|
        invariant 0 <= i <= |freeList| && freeList == old(freeList) && Quiet(old(log), log)
        invariant forall id: nat :: Stage(log, id) == if id in freeList[..i] then Gone else Stage(old(log), id)
      {
        assert freeList[i] in freeList && freeList[i] !in freeList[..i];
        Logged(log, Freed(freeList[i]));
        log := log + [Freed(freeList[i])];
        i := i + 1;
      }
      assert freeList[..i] == freeList;
      freeList := [];
    }

    /** How long `waiter_poll` lets `poll` sleep. */
    method Timeout(now: int) returns (ms: int)
      requires Earliest(made, timeWaiters, nextTimeout)
      ensures Positive(made, timeWaiters) ==> WakesInTime(made, timeWaiters, now, ms)
    {
      ms := if nextTimeout == 0 then -1 else if nextTimeout < now then 0 else (nextTimeout - now) / 1000;
    }

    /** `waiter_poll` after `poll` has returned, up to the freeing. */
    method Walk(ghost a: Moment, polled: int, interrupted: bool, revents: nat -> bool, now: int,
        script: nat -> Reaction)
      returns (ok: bool, rc: int)
      requires Valid() && Now() == a
      requires ioWaiters == Chosen(made, waiters, false) && timeWaiters == Chosen(made, waiters, true)
      modifies this`made, this`waiters, this`waitersChanged, this`freeList, this`log
      ensures Valid() && a.log <= log && |a.made| <= |made|
      ensures ok <==> AllBehave(a.log, log)
      ensures forall id: nat :: NotCalled(a, Now(), id) || (CalledOnce(a, Now(), id) && id in a.waiters)
      ensures forall id: nat :: id in a.waiters && id !in waiters ==>
        CalledOnce(a, Now(), id) || OtherRemoved(a.log, log, id)
      ensures ok && polled >= 0 ==> forall k :: 0 <= k < |ioWaiters| ==> Turn(a, Now(), ioWaiters[k], revents(k))
      ensures ok && polled >= 0 ==> forall id :: id in timeWaiters ==>
        id < |a.made| && Turn(a, Now(), id, Due(a.made, id, now)) && (Due(a.made, id, now) ==> id !in waiters)
      ensures rc == if polled < 0 && !interrupted then polled else 0
    {
      hide Stage, Calls, Since, Dispatched, Polled, Turn, Behaves, AllBehave, Chosen, NotCalled, CalledOnce,
        OtherRemoved;
      AllMade();
      ChosenAre(made, waiters, false);
      ChosenAre(made, waiters, true);
      PolledNone(a);
      ok, rc := true, if interrupted then 0 else polled;
      if polled >= 0 {
        var n;
        ok, n := PollIo(a, revents, script);
        if ok {
          ok := PollTimers(a, ioWaiters, now, script, n);
          PolledMeans(a, Now(), ioWaiters + timeWaiters);
        } else {
          PolledMeans(a, Now(), ioWaiters);
        }
        rc := 0;
      } else {
        PolledMeans(a, Now(), []);
      }
    }

    /**
     `waiter_poll`. `poll` waits for at most `timeoutMs` and returns `polled`; the clock
     reads `before` ahead of it and `now` after the I/O callbacks. Not `ok`: an assertion failed.
     */
    method Poll(polled: int, interrupted: bool, revents: nat -> bool, before: int, now: int, script: nat -> Reaction)
      returns (ok: bool, rc: int, timeoutMs: int)
      requires Valid()
      modifies this
      ensures Valid()
      ensures ok <==> AllBehave(old(log), log)
      // only waiters registered before the poll are called, at most once
      ensures forall id: nat ::
        NotCalled(old(Now()), Now(), id) || (CalledOnce(old(Now()), Now(), id) && id in old(waiters))
      // nobody disappears without cause
      ensures forall id: nat :: id in old(waiters) && id !in waiters ==>
        CalledOnce(old(Now()), Now(), id) || OtherRemoved(old(log), log, id)
      // I/O waiters are called if their file is ready, timers exactly once, if they are due
      ensures ok && polled >= 0 ==> forall k :: 0 <= k < |ioWaiters| ==>
        Turn(old(Now()), Now(), ioWaiters[k], revents(k))
      ensures ok && polled >= 0 ==> forall id: nat :: id in old(waiters) && old(made)[id].kind.Timer? ==>
        Turn(old(Now()), Now(), id, Due(old(made), id, now))
      ensures ok && polled >= 0 ==> forall id: nat :: id in old(waiters) && Due(old(made), id, now) ==> id !in waiters
      ensures ioWaiters == Chosen(old(made), old(waiters), false)
        && timeWaiters == Chosen(old(made), old(waiters), true)
      // whatever was removed is freed
      ensures ok ==> forall id: nat :: id < |made| && id !in waiters ==> Stage(log, id) == Gone
      ensures ok ==> rc == if polled < 0 && !interrupted then polled else 0
      ensures Positive(old(made), timeWaiters) ==> WakesInTime(old(made), timeWaiters, before, timeoutMs)
    {
      hide Stage, Calls, Since, Dispatched, Polled, Turn, Behaves, AllBehave, Chosen, NotCalled, CalledOnce,
        OtherRemoved, Earliest, WakesInTime;
      AllMade();
      UpdateWaiters();
      ghost var a := Now();
      ChosenAre(made, waiters, true);
      timeoutMs := Timeout(before);
      ok, rc := Walk(a, polled, interrupted, revents, now, script);
      if ok {
        ghost var b := Now();
        FreeRemoved();
        assert forall id: nat :: id < |made| && id !in waiters ==> Stage(log, id) == Gone;
        TurnFreed(a, b, Now());
      }
    }
  }
}
