// The runtime itself, with the weak maps it keeps per root and the synchronous blocks that update them.
// Every method is proved against the transition function of AdapterProtocol for its root, and leaves all
// other roots alone.  Perform runs whichever block an action stands for: it keeps every root reachable, so
// the theorems about reachable roots hold between any two of its calls.
module AdapterRuntimes {
  import opened Prelude
  import opened AdapterProtocol
  import D = Drains
  import T = AdapterTheorems

  function Get(entries: map<nat, nat>, root: nat): Option<nat> {
    if root in entries then Some(entries[root]) else None
  }

  function Counter(entries: map<nat, nat>, root: nat): nat {
    if root in entries then entries[root] else 0
  }

  function Objects<T>(entries: map<nat, seq<T>>, root: nat): seq<T> {
    if root in entries then entries[root] else []
  }

  class AdapterRuntime {
    var generations: map<nat, nat>
    var pending: map<nat, nat>
    var mountTasks: map<nat, nat>
    var lifecycles: map<nat, nat>
    var teardowns: map<nat, nat>
    var updateEpochs: map<nat, nat>
    var updateQueues: map<nat, nat>
    // The objects of each root, by their number.
    var records: map<nat, seq<Record>>
    var barriers: map<nat, seq<Barrier>>
    var updates: map<nat, seq<Update>>
    ghost var history: map<nat, seq<Event>>

    // Every root is in a state that some run of the protocol reaches.
    ghost predicate Valid()
      reads this
    {
      forall root: nat :: Reachable(View(root))
    }

    constructor ()
      ensures forall root :: View(root) == INITIAL_ROOT
      ensures Valid()
    {
      generations, pending, mountTasks, lifecycles, teardowns := map[], map[], map[], map[], map[];
      updateEpochs, updateQueues := map[], map[];
      records, barriers, updates, history := map[], map[], map[], map[];
      new;
      assert Run(INITIAL_ROOT, [], INITIAL_ROOT);
    }

    ghost function View(root: nat): Root
      reads this
    {
      Root(Counter(generations, root), Get(pending, root), Get(mountTasks, root), Get(lifecycles, root),
           Get(teardowns, root), Counter(updateEpochs, root), Get(updateQueues, root),
           Objects(records, root), Objects(barriers, root), Objects(updates, root), Objects(history, root))
    }

    twostate predicate OthersUnchanged(root: nat)
      reads this
    {
      forall q :: q != root ==> View(q) == old(View(q))
    }

    predicate Current(root: nat, r: nat)
      reads this
    {
      && Get(pending, root) == Some(r)
      && r < |Objects(records, root)|
      && Counter(generations, root) == Objects(records, root)[r].generation
      && !Objects(records, root)[r].aborted
    }

    method AdvanceGeneration(root: nat) returns (next: nat)
      modifies `generations
      ensures next == old(View(root)).generation + 1
      ensures View(root) == old(View(root)).(generation := next) && OthersUnchanged(root)
    {
      next := Counter(generations, root) + 1;
      generations := generations[root := next];
    }

    method StoreRecord(root: nat, r: nat, record: Record)
      requires r < |View(root).records|
      modifies `records
      ensures View(root) == SetRecord(old(View(root)), r, record) && OthersUnchanged(root)
    {
      records := records[root := Objects(records, root)[r := record]];
    }

    method StoreUpdate(root: nat, u: nat, point: UpdatePoint)
      requires u < |View(root).updates|
      modifies `updates
      ensures View(root) == SetUpdate(old(View(root)), u, point) && OthersUnchanged(root)
    {
      var all := Objects(updates, root);
      updates := updates[root := all[u := all[u].(point := point)]];
    }

    ghost method Log(root: nat, event: Event)
      modifies `history
      ensures View(root) == old(View(root)).(history := old(View(root)).history + [event]) && OthersUnchanged(root)
    {
      history := history[root := Objects(history, root) + [event]];
    }

    // ---- mount ---------------------------------------------------------------------------------------

    method MountInternal(root: nat, r: nat, begin: Begin)
      requires r < |View(root).records|
      modifies `records
      ensures View(root) == BeginMount(old(View(root)), r, begin) && OthersUnchanged(root)
    {
      var record := Objects(records, root)[r];
      if !Current(root, r) || begin.Disconnected? {
        StoreRecord(root, r, record.(point := Done));
      } else if begin.Importing? {
        StoreRecord(root, r, record.(point := AwaitImport));
      } else {
        StoreRecord(root, r, record.(point := Done, aborted := true));
      }
    }

    method OpenRecord(root: nat) returns (r: nat)
      modifies `generations, `pending, `mountTasks, `records
      ensures r == |old(View(root)).records|
      ensures var s := old(View(root));
        View(root) == s.(
          generation := s.generation + 1,
          pending := Some(r),
          mountTask := Some(r),
          records := s.records + [Record(s.generation + 1, false, s.teardown, AwaitTeardown, false, None)])
      ensures OthersUnchanged(root)
    {
      var generation := AdvanceGeneration(root);
      r := |Objects(records, root)|;
      var record := Record(generation, false, Get(teardowns, root), AwaitTeardown, false, None);
      records := records[root := Objects(records, root) + [record]];
      pending := pending[root := r];
      mountTasks := mountTasks[root := r];
    }

    method StartMount(root: nat, begin: Begin) returns (task: Option<nat>)
      modifies `generations, `pending, `mountTasks, `records
      ensures (View(root), task) == Mount(old(View(root)), begin) && OthersUnchanged(root)
    {
      if root in lifecycles || root in mountTasks {
        return None;
      }
      var r := OpenRecord(root);
      if root !in teardowns {
        MountInternal(root, r, begin);
      }
      task := Some(r);
    }

    method ContinueAfterImport(root: nat, r: nat, outcome: ImportOutcome)
      requires r < |View(root).records|
      modifies `records
      ensures View(root) == AfterImport(old(View(root)), r, outcome) && OthersUnchanged(root)
    {
      var record := Objects(records, root)[r];
      match outcome
      case ImportFailed =>
        if !record.aborted && Counter(generations, root) == record.generation {
          record := record.(aborted := true);
        }
        StoreRecord(root, r, record.(point := Done));
      case Imported(connected) =>
        if !Current(root, r) || !connected {
          StoreRecord(root, r, record.(point := Done));
        } else {
          StoreRecord(root, r, record.(point := AwaitPluginMount, attached := true, lifecycle := Some(D.FRESH_LIFECYCLE)));
        }
    }

    method CleanUpAndAwait(root: nat, r: nat, aborted: bool)
      requires r < |View(root).records| && View(root).records[r].lifecycle.Some?
      modifies `records
      ensures View(root) == AwaitOwnCleanup(old(View(root)), r, aborted) && OthersUnchanged(root)
    {
      var work := TakeCleanups(root, r, false);
      var record := Objects(records, root)[r];
      StoreRecord(root, r, record.(point := AwaitCleanup(work), aborted := record.aborted || aborted));
    }

    method ContinueAfterPluginMount(root: nat, r: nat, outcome: MountOutcome)
      requires r < |View(root).records| && View(root).records[r].lifecycle.Some?
      modifies `records, `lifecycles
      ensures View(root) == AfterPluginMount(old(View(root)), r, outcome) && OthersUnchanged(root)
    {
      var record := Objects(records, root)[r];
      match outcome
      case MountThrew =>
        CleanUpAndAwait(root, r, Counter(generations, root) == record.generation);
      case MountReturned(isFunction, connected) =>
        StoreRecord(root, r, record.(lifecycle := Some(D.SetReturned(record.lifecycle.value, isFunction))));
        if !Current(root, r) || !connected {
          CleanUpAndAwait(root, r, false);
        } else {
          StoreRecord(root, r, Objects(records, root)[r].(attached := false, point := Done));
          lifecycles := lifecycles[root := r];
        }
    }

    // mountInternal after its own cleanup.
    method ContinueAfterCleanup(root: nat, r: nat)
      requires r < |View(root).records|
      modifies `records
      ensures View(root) == Finish(old(View(root)), r, false) && OthersUnchanged(root)
    {
      StoreRecord(root, r, Objects(records, root)[r].(point := Done));
    }

    method TaskResolved(root: nat, r: nat)
      modifies `pending, `mountTasks
      ensures View(root) == TaskHandler(old(View(root)), r) && OthersUnchanged(root)
    {
      if Get(pending, root) == Some(r) {
        pending := pending - {root};
      }
      if Get(mountTasks, root) == Some(r) {
        mountTasks := mountTasks - {root};
      }
    }

    // ---- cleanup and dispose -------------------------------------------------------------------------

    // cleanupLifecycle: the registered callbacks are popped from the end of the list.
    method TakeCleanups(root: nat, r: nat, byDispose: bool) returns (work: Option<nat>)
      requires r < |View(root).records| && View(root).records[r].lifecycle.Some?
      modifies `records
      ensures var s := old(View(root));
        var (l, drain) := D.CleanupLifecycle(s.records[r].lifecycle.value, byDispose);
        View(root) == SetRecord(s, r, s.records[r].(lifecycle := Some(l))) && work == drain
      ensures OthersUnchanged(root)
    {
      var record := Objects(records, root)[r];
      var l := record.lifecycle.value;
      var callbacks := [];
      if !l.unmountTaken {
        l := l.(unmountTaken := true);
        callbacks := callbacks + [D.UnmountHook];
      }
      if !l.returnedTaken && l.returned {
        l := l.(returnedTaken := true);
        callbacks := callbacks + [D.MountReturn];
      }
      ghost var head := callbacks;
      var cleanups := l.cleanups;
      while |cleanups| > 0
        invariant callbacks + Reverse(cleanups) == head + Reverse(l.cleanups)
        decreases |cleanups|
      {
        var last := |cleanups| - 1;
        assert Reverse(cleanups) == [cleanups[last]] + Reverse(cleanups[..last]);
        callbacks := callbacks + [cleanups[last]];
        cleanups := cleanups[..last];
      }
      assert Reverse(cleanups) == [];
      assert callbacks == head + Reverse(l.cleanups);
      assert callbacks == D.Waiting(record.lifecycle.value);
      if callbacks == [] {
        work := l.barrier;
        assert l == record.lifecycle.value;
        assert View(root).records == View(root).records[r := record];
      } else {
        work := Some(|l.drains|);
        var drain := D.Drain(callbacks, l.barrier, 0, false, byDispose);
        l := l.(cleanups := [], barrier := work, drains := l.drains + [drain]);
        StoreRecord(root, r, record.(lifecycle := Some(l)));
      }
    }

    // trackTeardown for the promise of cleanupLifecycle.
    method TrackTeardown(root: nat, r: nat)
      requires r < |View(root).records| && View(root).records[r].lifecycle.Some?
      modifies `records, `barriers, `teardowns
      ensures View(root) == TearDown(old(View(root)), r) && OthersUnchanged(root)
    {
      var work := TakeCleanups(root, r, true);
      var barrier := Barrier(Get(teardowns, root), if work.None? then None else Some((r, work.value)), false);
      teardowns := teardowns[root := |Objects(barriers, root)|];
      barriers := barriers[root := Objects(barriers, root) + [barrier]];
    }

    method Abort(root: nat, target: Option<nat>)
      modifies `records
      ensures View(root) == AbortRecord(old(View(root)), target) && OthersUnchanged(root)
    {
      if target.Some? && target.value < |Objects(records, root)| {
        StoreRecord(root, target.value, Objects(records, root)[target.value].(aborted := true));
      }
    }

    method TearDownIfPresent(root: nat, target: Option<nat>)
      modifies `records, `barriers, `teardowns
      ensures View(root) == TearDownTarget(old(View(root)), target) && OthersUnchanged(root)
    {
      var all := Objects(records, root);
      if target.Some? && target.value < |all| && all[target.value].lifecycle.Some? {
        TrackTeardown(root, target.value);
      }
    }

    method Invalidate(root: nat)
      modifies `updateEpochs, `updateQueues, `history
      ensures var s := old(View(root));
        View(root) == s.(epoch := s.epoch + 1, queue := None, history := s.history + [Unmounted])
      ensures OthersUnchanged(root)
    {
      updateEpochs := updateEpochs[root := Counter(updateEpochs, root) + 1];
      updateQueues := updateQueues - {root};
      Log(root, Unmounted);
    }

    method EmptySlots(root: nat)
      modifies `pending, `mountTasks, `lifecycles
      ensures View(root) == old(View(root)).(pending := None, mountTask := None, installed := None)
      ensures OthersUnchanged(root)
    {
      pending := pending - {root};
      mountTasks := mountTasks - {root};
      lifecycles := lifecycles - {root};
    }

    method AbortSlots(root: nat)
      modifies `records
      ensures View(root) == AbortRecord(AbortRecord(old(View(root)), old(View(root)).pending), old(View(root)).installed)
      ensures OthersUnchanged(root)
    {
      Abort(root, Get(pending, root));
      Abort(root, Get(lifecycles, root));
    }

    method DetachRoot(root: nat, invalidate: bool)
      modifies this
      ensures View(root) == Detach(old(View(root)), invalidate) && OthersUnchanged(root)
    {
      AbortSlots(root);
      ghost var aborted := View(root);
      var generation := AdvanceGeneration(root);
      EmptySlots(root);
      assert View(root) == aborted.(generation := generation, pending := None, mountTask := None, installed := None);
      if invalidate {
        Invalidate(root);
      }
    }

    method DisposeRoot(root: nat, invalidate: bool)
      modifies this
      ensures View(root) == Dispose(old(View(root)), invalidate) && OthersUnchanged(root)
    {
      var all := Objects(records, root);
      var record := Get(pending, root);
      var provisional := if record.Some? && record.value < |all| && all[record.value].attached then record else None;
      var lifecycle := Get(lifecycles, root);
      DetachRoot(root, invalidate);
      TearDownIfPresent(root, lifecycle);
      if provisional != lifecycle {
        TearDownIfPresent(root, provisional);
      }
    }

    // onCleanup of the context.
    method OnCleanup(root: nat, r: nat)
      requires r < |View(root).records| && View(root).records[r].lifecycle.Some?
      modifies `records
      ensures View(root) == Apply(old(View(root)), DoRegister(r)) && OthersUnchanged(root)
    {
      var record := Objects(records, root)[r];
      var l := record.lifecycle.value;
      var callback := D.Registered(l.registrations);
      if record.aborted {
        l := l.(late := l.late + [callback]);
      } else {
        l := l.(cleanups := l.cleanups + [callback]);
      }
      StoreRecord(root, r, record.(lifecycle := Some(l.(registrations := l.registrations + 1))));
    }

    method StoreLifecycle(root: nat, r: nat, l: D.Lifecycle)
      requires r < |View(root).records|
      modifies `records
      ensures View(root) == SetLifecycle(old(View(root)), r, l) && OthersUnchanged(root)
    {
      StoreRecord(root, r, Objects(records, root)[r].(lifecycle := Some(l)));
    }

    // One turn of the drain loop: take the next callback and call it.
    method RunNextCallback(root: nat, r: nat, d: nat)
      requires Enabled(View(root), StartCallback(r, d))
      modifies `records
      ensures View(root) == Apply(old(View(root)), StartCallback(r, d)) && OthersUnchanged(root)
    {
      var l := Objects(records, root)[r].lifecycle.value;
      var drain := l.drains[d];
      var callback := drain.callbacks[drain.started];
      drain := drain.(started := drain.started + 1, running := true);
      StoreLifecycle(root, r, l.(drains := l.drains[d := drain], order := l.order + [callback]));
    }

    method CallbackSettled(root: nat, r: nat, d: nat)
      requires Enabled(View(root), SettleCallback(r, d))
      modifies `records
      ensures View(root) == Apply(old(View(root)), SettleCallback(r, d)) && OthersUnchanged(root)
    {
      var l := Objects(records, root)[r].lifecycle.value;
      StoreLifecycle(root, r, l.(drains := l.drains[d := l.drains[d].(running := false)]));
    }

    // The handler that clears cleanupState.barrier.
    method DrainResolved(root: nat, r: nat, d: nat)
      requires Enabled(View(root), ForgetDrain(r, d))
      modifies `records
      ensures View(root) == Apply(old(View(root)), ForgetDrain(r, d)) && OthersUnchanged(root)
    {
      var l := Objects(records, root)[r].lifecycle.value;
      if l.barrier == Some(d) {
        StoreLifecycle(root, r, l.(barrier := None));
      } else {
        StoreLifecycle(root, r, l);
      }
    }

    method BarrierSettles(root: nat, b: nat)
      requires b < |View(root).barriers|
      modifies `barriers
      ensures var s := old(View(root)); View(root) == s.(barriers := s.barriers[b := s.barriers[b].(settled := true)])
      ensures OthersUnchanged(root)
    {
      var all := Objects(barriers, root);
      barriers := barriers[root := all[b := all[b].(settled := true)]];
    }

    // The handler of a settled teardown barrier.
    method BarrierResolved(root: nat, b: nat)
      modifies `teardowns
      ensures var s := old(View(root)); View(root) == s.(teardown := if s.teardown == Some(b) then None else s.teardown)
      ensures OthersUnchanged(root)
    {
      if Get(teardowns, root) == Some(b) {
        teardowns := teardowns - {root};
      }
    }

    // ---- update --------------------------------------------------------------------------------------

    method PerformUpdate(root: nat, u: nat, env: UpdateEnv, lifecycle: nat)
      requires u < |View(root).updates|
      modifies this
      ensures View(root) == TryUpdate(old(View(root)), u, env, lifecycle) && OthersUnchanged(root)
    {
      var prepared := Objects(updates, root)[u].prepared;
      if !prepared && env.parseFails {
        StoreUpdate(root, u, Finished);
      } else if env.hasUpdate {
        StoreUpdate(root, u, AwaitPluginUpdate(lifecycle));
      } else {
        ghost var s := View(root);
        DisposeKeepsUpdates(s);
        DisposeRoot(root, false);
        if prepared {
          Log(root, WroteRoot(u));
        }
        var task := StartMount(root, env.begin);
        StoreUpdate(root, u, AwaitRemount(task));
      }
    }

    method UpdateAfterActiveMount(root: nat, u: nat, env: UpdateEnv)
      requires u < |View(root).updates|
      modifies this
      ensures View(root) == AfterActiveMount(old(View(root)), u, env) && OthersUnchanged(root)
    {
      if Counter(updateEpochs, root) != Objects(updates, root)[u].epoch {
        StoreUpdate(root, u, Finished);
      } else if root in lifecycles {
        PerformUpdate(root, u, env, lifecycles[root]);
      } else {
        var task := StartMount(root, env.begin);
        StoreUpdate(root, u, AwaitOwnMount(task));
      }
    }

    // performUpdate after the mount it started itself.
    method UpdateAfterOwnMount(root: nat, u: nat, env: UpdateEnv)
      requires u < |View(root).updates|
      modifies this
      ensures View(root) == AfterOwnMount(old(View(root)), u, env) && OthersUnchanged(root)
    {
      if Counter(updateEpochs, root) != Objects(updates, root)[u].epoch || root !in lifecycles {
        StoreUpdate(root, u, Finished);
      } else {
        PerformUpdate(root, u, env, lifecycles[root]);
      }
    }

    // The handler of a settled update.
    method UpdateResolved(root: nat, u: nat)
      modifies `updateQueues
      ensures var s := old(View(root)); View(root) == s.(queue := if s.queue == Some(u) then None else s.queue)
      ensures OthersUnchanged(root)
    {
      if Get(updateQueues, root) == Some(u) {
        updateQueues := updateQueues - {root};
      }
    }

    method Enqueue(root: nat, prepared: bool) returns (u: nat)
      modifies `updates, `history
      ensures u == |old(View(root)).updates|
      ensures var s := old(View(root));
        View(root) == s.(updates := s.updates + [Update(s.epoch, prepared, s.queue, Queued)],
                         history := s.history + [Enqueued(u)])
      ensures OthersUnchanged(root)
    {
      u := |Objects(updates, root)|;
      var update := Update(Counter(updateEpochs, root), prepared, Get(updateQueues, root), Queued);
      updates := updates[root := Objects(updates, root) + [update]];
      Log(root, Enqueued(u));
    }

    method FirstBlock(root: nat, u: nat, env: UpdateEnv)
      requires u < |View(root).updates|
      modifies this
      ensures View(root) == StartUpdate(old(View(root)), u, env) && OthersUnchanged(root)
    {
      if root in mountTasks {
        StoreUpdate(root, u, AwaitActiveMount(mountTasks[root]));
      } else {
        UpdateAfterActiveMount(root, u, env);
      }
    }

    method SetQueue(root: nat, u: nat)
      modifies `updateQueues
      ensures View(root) == old(View(root)).(queue := Some(u)) && OthersUnchanged(root)
    {
      updateQueues := updateQueues[root := u];
    }

    method UpdateRoot(root: nat, prepared: bool, env: UpdateEnv)
      modifies this
      ensures View(root) == CallUpdate(old(View(root)), prepared, env) && OthersUnchanged(root)
    {
      var previous := Get(updateQueues, root);
      var u := Enqueue(root, prepared);
      if previous.None? {
        FirstBlock(root, u, env);
      }
      SetQueue(root, u);
    }

    method ContinueAfterPluginUpdate(root: nat, u: nat, lifecycle: nat, threw: bool)
      requires u < |View(root).updates|
      modifies `updates, `history
      ensures View(root) == AfterPluginUpdate(old(View(root)), u, lifecycle, threw) && OthersUnchanged(root)
    {
      var all := Objects(records, root);
      var update := Objects(updates, root)[u];
      StoreUpdate(root, u, Finished);
      if Get(lifecycles, root) == Some(lifecycle)
         && !(lifecycle < |all| && all[lifecycle].aborted)
         && Counter(updateEpochs, root) == update.epoch
         && !threw
      {
        Log(root, WroteLifecycle(u));
        if update.prepared {
          Log(root, WroteRoot(u));
        }
      }
    }

    // ---- Any block -----------------------------------------------------------------------------------

    // The blocks that settle a mount.
    method PerformMount(root: nat, a: Action)
      requires Enabled(View(root), a)
      requires a.ResumeMount? || a.ImportSettles? || a.PluginMountSettles? || a.CleanupAwaited? || a.HandleTask?
      modifies this
      ensures View(root) == Apply(old(View(root)), a) && OthersUnchanged(root)
    {
      match a
      case ResumeMount(r, begin) => MountInternal(root, r, begin);
      case ImportSettles(r, imported) => ContinueAfterImport(root, r, imported);
      case PluginMountSettles(r, mounted) => ContinueAfterPluginMount(root, r, mounted);
      case CleanupAwaited(r) => ContinueAfterCleanup(root, r);
      case HandleTask(r) => TaskResolved(root, r);
    }

    // The blocks of callbacks, drains and barriers.
    method PerformCleanup(root: nat, a: Action)
      requires Enabled(View(root), a)
      requires a.DoRegister? || a.StartCallback? || a.SettleCallback? || a.ForgetDrain? || a.SettleBarrier? || a.ForgetBarrier?
      modifies this
      ensures View(root) == Apply(old(View(root)), a) && OthersUnchanged(root)
    {
      match a
      case DoRegister(r) => OnCleanup(root, r);
      case StartCallback(r, d) => RunNextCallback(root, r, d);
      case SettleCallback(r, d) => CallbackSettled(root, r, d);
      case ForgetDrain(r, d) => DrainResolved(root, r, d);
      case SettleBarrier(b) => BarrierSettles(root, b);
      case ForgetBarrier(b) => BarrierResolved(root, b);
    }

    // The blocks of updates after the call.
    method ResumeUpdate(root: nat, a: Action)
      requires Enabled(View(root), a)
      requires a.BeginQueued? || a.ActiveMountAwaited? || a.OwnMountAwaited? || a.PluginUpdateSettles?
        || a.RemountAwaited? || a.ForgetUpdate?
      modifies this
      ensures View(root) == Apply(old(View(root)), a) && OthersUnchanged(root)
    {
      match a
      case BeginQueued(u, env) => FirstBlock(root, u, env);
      case ActiveMountAwaited(u, env) => UpdateAfterActiveMount(root, u, env);
      case OwnMountAwaited(u, env) => UpdateAfterOwnMount(root, u, env);
      case PluginUpdateSettles(u, threw) =>
        var point := Objects(updates, root)[u].point;
        ContinueAfterPluginUpdate(root, u, point.lifecycle, threw);
      case RemountAwaited(u) => StoreUpdate(root, u, Finished);
      case ForgetUpdate(u) => UpdateResolved(root, u);
    }

    method Dispatch(root: nat, a: Action)
      requires Enabled(View(root), a)
      modifies this
      ensures View(root) == Apply(old(View(root)), a) && OthersUnchanged(root)
    {
      match a
      case DoMount(begin) => var _ := StartMount(root, begin);
      case DoUnmount => DisposeRoot(root, true);
      case DoUpdate(prepared, env) => UpdateRoot(root, prepared, env);
      case ResumeMount(_, _) => PerformMount(root, a);
      case ImportSettles(_, _) => PerformMount(root, a);
      case PluginMountSettles(_, _) => PerformMount(root, a);
      case CleanupAwaited(_) => PerformMount(root, a);
      case HandleTask(_) => PerformMount(root, a);
      case BeginQueued(_, _) => ResumeUpdate(root, a);
      case ActiveMountAwaited(_, _) => ResumeUpdate(root, a);
      case OwnMountAwaited(_, _) => ResumeUpdate(root, a);
      case PluginUpdateSettles(_, _) => ResumeUpdate(root, a);
      case RemountAwaited(_) => ResumeUpdate(root, a);
      case ForgetUpdate(_) => ResumeUpdate(root, a);
      case _ => PerformCleanup(root, a);
    }

    // Any call on the runtime and any continuation that may run next.
    method Perform(root: nat, a: Action)
      requires Valid() && Enabled(View(root), a)
      modifies this
      ensures View(root) == Apply(old(View(root)), a) && OthersUnchanged(root)
      ensures Valid()
    {
      ghost var t := T.Step(View(root), a);
      Dispatch(root, a);
      forall q: nat ensures Reachable(View(q)) {
        assert Reachable(old(View(q)));
      }
    }
  }

  lemma DisposeKeepsUpdates(s: Root)
    ensures Dispose(s, false).updates == s.updates
  {
    assert TearDownTarget(Detach(s, false), s.installed).updates == s.updates;
  }
}
