/**
 A boot task and its asynchronous loads (discover/boot.c, discover/paths.c).
 Loads finish in any order, some of them while `boot` is still starting others;
 a cancel may come at any time. The task may start kexec and may free itself.
 */
module Boot {

  datatype Status = LoadOk | LoadError | LoadAsync | LoadCancelled

  /** The `result` pointer of a boot resource: null until its load has been started. */
  datatype Result = NoResult | Started(status: Status)

  /** What happens when a load is started. */
  datatype Outcome =
    | LocalFile(present: bool)   // `load_local`: the callback runs before `load_url_async` returns
    | Launched                   // a download process is running
    | LaunchFailed               // no process could be started, and no callback runs

  /** What the platform check and kexec say if it comes to that. */
  datatype Verdict = Verdict(prebootOk: bool, kexecOk: bool)

  datatype Event = Exited(i: nat, ok: bool, verdict: Verdict) | Cancelled

  ghost predicate AllOk(results: seq<Result>) {
    forall i :: 0 <= i < |results| ==> results[i] == Started(LoadOk)
  }

  lemma Singleton(s: set<nat>, x: nat)
    requires x in s
    ensures |s| == 1 <==> s == {x}
  {
    if |s| == 1 {
      assert |s - {x}| == 0;
      assert s == {x};
    }
  }

  class BootTask {
    var results: seq<Result>
    var cancelled: bool
    var freed: bool
    /** The loads with a download process whose exit has not been reported. */
    var running: set<nat>
    /** The loads in flight when the task was cancelled. */
    ghost var atCancel: set<nat>
    ghost var kexecLoads: nat

    constructor ()
      ensures Valid() && !cancelled && results == [] && running == {} && kexecLoads == 0
    {
      results, cancelled, freed := [], false, false;
      running, atCancel, kexecLoads := {}, {}, 0;
    }

    /** What holds even while a callback runs. */
    ghost predicate Consistent()
      reads this
    {
      && (forall i :: i in running ==>
        i < |results| && (results[i] == Started(LoadAsync) || results[i] == Started(LoadCancelled)))
      && (forall i: nat :: i < |results| && results[i] == Started(LoadAsync) ==> i in running && !cancelled)
      && (forall i: nat :: i < |results| && results[i] == Started(LoadCancelled) ==> i in atCancel)
      && (forall i :: i in atCancel ==> cancelled && i < |results| && results[i] == Started(LoadCancelled))
      && kexecLoads <= 1
      && (kexecLoads == 1 ==> running == {} && NoResult !in results)
    }

    /**
     A cancelled task is freed at once if nothing was in flight, with the last exit if one load was,
     and otherwise never.
     */
    ghost predicate Valid()
      reads this
    {
      && Consistent()
      && (freed <==> cancelled && (atCancel == {} || (|atCancel| == 1 && running == {})))
    }

    /** `cleanup_cancellations`; `cur` is the load whose callback this is, -1 if it is none. */
    method CleanupCancellations(cur: int)
      requires cancelled && !freed
      modifies this`results, this`freed
      ensures |results| == |old(results)|
      ensures forall i :: 0 <= i < |results| ==>
        results[i] == if old(results)[i] == Started(LoadAsync) && i != cur then Started(LoadCancelled)
          else old(results)[i]
      ensures freed <==> forall i :: 0 <= i < |results| && i != cur ==> results[i] != Started(LoadCancelled)
    {
      var pending := false;
      var i := 0;
      while i < |results|
        invariant 0 <= i <= |results| == |old(results)| && !freed && cancelled
        invariant forall k :: 0 <= k < |results| ==>
          results[k] == if k < i && old(results)[k] == Started(LoadAsync) && k != cur then Started(LoadCancelled)
            else old(results)[k]
        invariant pending <==> exists k :: 0 <= k < i && k != cur && results[k] == Started(LoadCancelled)
      {
        if results[i].Started? && i != cur && results[i].status != LoadOk && results[i].status != LoadError {
          if results[i].status == LoadAsync {
            results := results[i := Started(LoadCancelled)];
          }
          pending := true;
        }
        i := i + 1;
      }
      if !pending {
        freed := true;
      }
    }

    /** `boot_process`: the completion callback, also called at the end of `boot`. */
    method BootProcess(cur: int, v: Verdict)
      requires Consistent() && !freed && cur !in running
      requires cancelled ==> cur in atCancel
      requires kexecLoads == 0 || cancelled
      modifies this`results, this`freed, this`kexecLoads
      ensures Valid() && results == old(results)
      ensures kexecLoads == old(kexecLoads) + if !cancelled && AllOk(results) && v.prebootOk then 1 else 0
    {
      if cancelled {
        CleanupCancellations(cur);
        Singleton(atCancel, cur);
        assert results == old(results);
        assert freed ==> atCancel == {cur};
        return;
      }
      var i := 0;
      while i < |results|
        invariant 0 <= i <= |results|
        invariant forall k :: 0 <= k < i ==> results[k] != NoResult && results[k] != Started(LoadAsync)
      {
        if results[i] == NoResult || results[i].status == LoadAsync {
          return;
        }
        i := i + 1;
      }
      i := 0;
      while i < |results|
        invariant 0 <= i <= |results|
        invariant forall k :: 0 <= k < i ==> results[k] == Started(LoadOk)
      {
        if results[i].status == LoadError {
          return;
        }
        i := i + 1;
      }
      if !v.prebootOk {
        return;
      }
      kexecLoads := kexecLoads + 1;
    }

    /** `start_url_load`: a local file is reported before its result is recorded, so kexec never starts here. */
    method StartUrlLoad(i: nat, out: Outcome, v: Verdict) returns (ok: bool)
      requires Valid() && !cancelled && kexecLoads == 0 && i < |results| && results[i] == NoResult
      modifies this
      ensures Valid() && !cancelled && kexecLoads == 0
      ensures ok <==> out == Launched || out == LocalFile(true)
      ensures results == if !ok then old(results)
        else old(results)[i := Started(if out == Launched then LoadAsync else LoadOk)]
      ensures running == if out == Launched then old(running) + {i} else old(running)
    {
      match out
      case LocalFile(present) =>
        BootProcess(-1, v);
        if present {
          results := results[i := Started(LoadOk)];
        }
        ok := present;
      case Launched =>
        results := results[i := Started(LoadAsync)];
        running := running + {i};
        ok := true;
      case LaunchFailed =>
        ok := false;
    }

    /** The state of `boot` after starting the given loads. */
    ghost predicate Starting(outcomes: seq<Outcome>, failed: bool)
      reads this
    {
      && Valid() && !cancelled && kexecLoads == 0
      && if failed then exists k :: 0 <= k < |outcomes| && Fails(outcomes[k])
         else Begun(outcomes, results) && forall k :: k in running <==> 0 <= k < |outcomes| && outcomes[k] == Launched
    }

    /** Start the kernel, initrd and device tree loads, until one fails. */
    method StartFirst(outcomes: seq<Outcome>, v: Verdict) returns (failed: bool)
      requires Valid() && !cancelled && kexecLoads == 0 && running == {} && results == seq(|outcomes|, _ => NoResult)
      modifies this
      ensures Starting(outcomes, failed) && |results| == |outcomes|
    {
      failed := false;
      var i := 0;
      while i < |outcomes| && !failed
        invariant 0 <= i <= |outcomes| == |results| && Valid() && !cancelled && kexecLoads == 0
        invariant failed ==> exists k :: 0 <= k < i && Fails(outcomes[k])
        invariant !failed ==> Begun(outcomes[..i], results[..i])
        invariant !failed ==> forall k :: k in running <==> 0 <= k < i && outcomes[k] == Launched
        invariant !failed ==> forall k :: i <= k < |results| ==> results[k] == NoResult
      {
        var ok := StartUrlLoad(i, outcomes[i], v);
        failed := !ok;
        i := i + 1;
      }
      if !failed {
        assert outcomes[..i] == outcomes && results[..i] == results;
      }
    }

    /** Add a signature load and start it, whether or not the others could be started. */
    method StartNext(ghost done: seq<Outcome>, out: Outcome, v: Verdict, before: bool) returns (failed: bool)
      requires Starting(done, before) && |results| == |done|
      modifies this
      ensures Starting(done + [out], failed) && |results| == |done| + 1
    {
      results := results + [NoResult];
      var ok := StartUrlLoad(|results| - 1, out, v);
      failed := before || !ok;
      ghost var all := done + [out];
      if before {
        ghost var k :| 0 <= k < |done| && Fails(done[k]);
        assert Fails(all[k]);
      } else if !ok {
        assert Fails(all[|done|]);
      } else {
        assert Begun(all, results);
      }
    }

    /**
     `boot`: start the first loads until one fails, then the others come what
     may; a failure cancels the task, otherwise everything may be loaded already.
     Returns whether the caller gets the task.
     */
    method Boot(first: seq<Outcome>, others: seq<Outcome>, v: Verdict) returns (alive: bool)
      requires Valid() && !cancelled && results == [] && running == {} && kexecLoads == 0
      modifies this
      ensures Valid()
      ensures alive <==> forall k :: 0 <= k < |first + others| ==> !Fails((first + others)[k])
      ensures alive <==> !cancelled
      ensures alive ==> forall k :: k in running <==> 0 <= k < |first + others| && (first + others)[k] == Launched
      ensures kexecLoads == if (forall k :: 0 <= k < |first + others| ==> (first + others)[k] == LocalFile(true))
        && v.prebootOk then 1 else 0
    {
      results := seq(|first|, _ => NoResult);
      var failed := StartFirst(first, v);
      assert first + others[..0] == first;
      var i := 0;
      while i < |others|
        invariant 0 <= i <= |others| && Starting(first + others[..i], failed) && |results| == |first| + i
      {
        assert first + others[..i + 1] == first + others[..i] + [others[i]];
        failed := StartNext(first + others[..i], others[i], v, failed);
        i := i + 1;
      }
      assert others[..i] == others;
      if failed {
        Stop();
        return false;
      }
      AllOkIff(first + others, results);
      BootProcess(-1, v);
      alive := true;
    }

    /**
     Mark the task cancelled and cancel whatever is in flight (`boot_cancel`, and the end of a
     `boot` that failed).
     */
    method Stop()
      requires Valid() && !cancelled
      modifies this
      ensures Valid() && cancelled && atCancel == old(running) && running == old(running)
        && kexecLoads == old(kexecLoads)
    {
      cancelled := true;
      atCancel := running;
      CleanupCancellations(-1);
    }

    /** `load_url_process_exit`: a cancelled load stays cancelled; then the callback runs. */
    method ProcessExit(i: nat, ok: bool, v: Verdict)
      requires Valid() && i in running
      modifies this
      ensures Valid() && cancelled == old(cancelled) && atCancel == old(atCancel) && running == old(running) - {i}
      ensures results == if cancelled then old(results)
        else old(results)[i := Started(if ok then LoadOk else LoadError)]
      ensures kexecLoads == old(kexecLoads) + if !cancelled && AllOk(results) && v.prebootOk then 1 else 0
    {
      assert !freed by { if freed { Singleton(atCancel, i); } }
      if results[i].status != LoadCancelled {
        results := results[i := Started(if ok then LoadOk else LoadError)];
      }
      running := running - {i};
      BootProcess(i, v);
    }

    /** Any run: loads exit in any order with any verdicts, and the owner cancels at most once. */
    method Run(events: seq<Event>)
      requires Valid()
      modifies this
      ensures Valid()
      ensures old(cancelled) ==>
        cancelled && kexecLoads == old(kexecLoads) && atCancel == old(atCancel) && (old(freed) ==> freed)
      ensures old(kexecLoads) <= kexecLoads <= 1
    {
      var n := 0;
      while n < |events|
        invariant 0 <= n <= |events| && Valid() && old(kexecLoads) <= kexecLoads
        invariant old(cancelled) ==> cancelled && kexecLoads == old(kexecLoads) && atCancel == old(atCancel)
        invariant old(freed) ==> freed
      {
        match events[n] {
          case Exited(i, ok, v) =>
            if i in running {
              ProcessExit(i, ok, v);
            }
          case Cancelled =>
            if !cancelled {
              Stop();
            }
        }
        n := n + 1;
      }
    }

    /**
     Once every download has exited, a cancelled task has been freed exactly if at most one was in
     flight at the cancel.
     */
    lemma FreedExactlyIfAtMostOne()
      requires Valid() && cancelled && running == {}
      ensures freed <==> |atCancel| <= 1
    {
      if |atCancel| == 0 { assert atCancel == {}; }
    }

    /** A task is never freed while a download of its may still call back. */
    lemma NotFreedInFlight()
      requires Valid() && running != {}
      ensures !freed
    {
      var i :| i in running;
      if freed { Singleton(atCancel, i); }
    }
  }

  ghost predicate Fails(out: Outcome) {
    out == LaunchFailed || out == LocalFile(false)
  }

  /** Each load has begun as its outcome says. */
  ghost predicate Begun(outcomes: seq<Outcome>, results: seq<Result>) {
    |results| == |outcomes| && forall k :: 0 <= k < |outcomes| ==>
      !Fails(outcomes[k]) && results[k] == Started(if outcomes[k] == Launched then LoadAsync else LoadOk)
  }

  lemma AllOkIff(outcomes: seq<Outcome>, results: seq<Result>)
    requires Begun(outcomes, results)
    ensures AllOk(results) <==> forall k :: 0 <= k < |outcomes| ==> outcomes[k] == LocalFile(true)
  {
    if AllOk(results) {
      forall k | 0 <= k < |outcomes| ensures outcomes[k] == LocalFile(true) {
        assert results[k] == Started(LoadOk) && !Fails(outcomes[k]);
      }
    }
  }

  /** Two downloads in flight at the cancel: both exit, and the task is still there. */
  method TwoInFlightLeak() returns (task: BootTask)
    ensures fresh(task) && task.cancelled && task.running == {} && !task.freed
  {
    task := new BootTask();
    var v := Verdict(true, true);
    var alive := task.Boot([Launched, Launched], [], v);
    assert task.running == {0, 1};
    task.Stop();
    task.ProcessExit(0, true, v);
    task.ProcessExit(1, true, v);
    task.FreedExactlyIfAtMostOne();
  }
}
