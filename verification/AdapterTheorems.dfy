// What holds in every run of the adapter runtime, over any number of roots.
module AdapterTheorems {
  import opened Prelude
  import opened AdapterProtocol
  import S = AdapterSafety
  import U = AdapterUpdates
  import O = AdapterOwnCleanup
  import W = AdapterStranded
  import M = AdapterDrains
  import D = Drains

  ghost predicate Inv(s: Root) {
    S.Core(s) && U.Inv(s) && O.Own(s) && W.Wait(s)
  }

  lemma StepInv(s: Root, a: Action)
    requires Inv(s) && Enabled(s, a)
    ensures Inv(Apply(s, a))
  {
    hide Enabled, Apply, S.Core, U.Inv, O.Own, W.Wait;
    S.StepCore(s, a);
    U.StepInv(s, a);
    O.StepOwn(s, a);
    W.StepWait(s, a);
  }

  lemma {:induction false} RunInv(s: Root, actions: seq<Action>, t: Root)
    requires Inv(s) && Run(s, actions, t)
    ensures Inv(t)
    decreases |actions|
  {
    if actions != [] {
      StepInv(s, actions[0]);
      RunInv(Apply(s, actions[0]), actions[1..], t);
    }
  }

  lemma ReachableInv(s: Root)
    requires Reachable(s)
    ensures Inv(s)
  {
    var actions :| Run(INITIAL_ROOT, actions, s);
    RunInv(INITIAL_ROOT, actions, s);
  }

  // ---- Teardown comes before the next mount ----------------------------------------------------------

  // The step in which mountInternal of record r calls plugin.mount.
  predicate CallsPluginMount(s: Root, a: Action, r: nat) {
    && a.ImportSettles? && a.record == r && Enabled(s, a)
    && Apply(s, a).records[r].point == AwaitPluginMount
  }

  // plugin.mount is never called before every callback taken by any earlier dispose of the root has
  // settled, and each of those callbacks has run exactly once by then.
  lemma MountWaitsForTeardown(s: Root, a: Action, r: nat, q: nat, d: nat)
    requires Reachable(s) && CallsPluginMount(s, a, r) && S.DisposeDrain(s, q, d)
    ensures var l := s.records[q].lifecycle.value;
      && l.drains[d].Settled()
      && forall c :: c in l.drains[d].callbacks ==> Count(l.order, c) == 1
  {
    ReachableInv(s);
    assert S.RecordOk(s, r) && S.RecordOk(s, q);
    hide Reachable, U.Inv, O.Own, W.Wait;
    var b :| 0 <= b < |s.barriers| && s.barriers[b].work == Some((q, d));
    assert S.BarrierOk(s, b);
    var l := s.records[q].lifecycle.value;
    assert l.drains[d].Settled();
    forall c | c in l.drains[d].callbacks ensures Count(l.order, c) == 1 {
      SettledDrainRan(l.drains, d, c);
      CountMember(l.order, c);
      D.AtMostOnce(l, c);
    }
  }

  lemma {:induction false} SettledDrainRan(drains: seq<D.Drain>, d: nat, c: D.Callback)
    requires d < |drains| && drains[d].Settled() && c in drains[d].callbacks
    ensures c in D.StartedPart(drains)
  {
    var n := |drains| - 1;
    if d < n {
      SettledDrainRan(drains[..n], d, c);
    }
  }

  // Nor while a cleanup that mountInternal itself began with is unfinished: a failed mount, and one that
  // found its root disconnected, keep the task slot until their drain has settled, and a dispose before
  // that hands the drain to the barrier.
  lemma MountWaitsForOwnCleanup(s: Root, a: Action, r: nat, q: nat)
    requires Reachable(s) && CallsPluginMount(s, a, r) && q < |s.records| && s.records[q].lifecycle.Some?
    requires O.OwnFirst(s.records[q].lifecycle.value)
    ensures D.AllSettled(s.records[q].lifecycle.value)
  {
    ReachableInv(s);
    assert S.RecordOk(s, r);
    O.OwnSettled(s, q);
  }

  // So only one kind of cleanup can be unfinished at plugin.mount: the returned cleanup, and nothing else,
  // of a lifecycle that a dispose cleaned up first and whose mountInternal came back afterwards.
  lemma UnfinishedAtMount(s: Root, a: Action, r: nat, q: nat, d: nat)
    requires Reachable(s) && CallsPluginMount(s, a, r) && q < |s.records| && s.records[q].lifecycle.Some?
    requires d < |s.records[q].lifecycle.value.drains| && !s.records[q].lifecycle.value.drains[d].Settled()
    ensures var drains := s.records[q].lifecycle.value.drains;
      && d == 1 && |drains| == 2
      && drains[0].byDispose && drains[0].Settled()
      && !drains[1].byDispose && drains[1].callbacks == [D.MountReturn]
  {
    ReachableInv(s);
    assert O.RecordOwn(s, q);
    var l := s.records[q].lifecycle.value;
    if O.OwnFirst(l) {
      MountWaitsForOwnCleanup(s, a, r, q);
    } else {
      assert S.DisposeDrain(s, q, 0);
      MountWaitsForTeardown(s, a, r, q, 0);
      if l.drains[d].byDispose {
        MountWaitsForTeardown(s, a, r, q, d);
      }
    }
  }

  // A run in which no unmount comes while plugin.mount of record q is pending.
  ghost predicate UninterruptedRun(s: Root, actions: seq<Action>, t: Root, q: nat)
    decreases |actions|
  {
    if actions == [] then s == t
    else
      && Enabled(s, actions[0]) && !O.Interrupts(s, actions[0], q)
      && UninterruptedRun(Apply(s, actions[0]), actions[1..], t, q)
  }

  lemma {:induction false} UninterruptedWhole(s: Root, actions: seq<Action>, t: Root, q: nat)
    requires Inv(s) && O.WholeAt(s, q) && UninterruptedRun(s, actions, t, q)
    ensures Run(s, actions, t) && O.WholeAt(t, q)
    decreases |actions|
  {
    if actions != [] {
      StepInv(s, actions[0]);
      O.StepWhole(s, actions[0], q);
      UninterruptedWhole(Apply(s, actions[0]), actions[1..], t, q);
    }
  }

  lemma WholeSettled(s: Root, a: Action, r: nat, q: nat)
    requires Reachable(s) && CallsPluginMount(s, a, r) && O.WholeAt(s, q)
    requires q < |s.records| && s.records[q].lifecycle.Some?
    ensures D.AllSettled(s.records[q].lifecycle.value)
  {
    assert O.WholeOk(s.records[q]);
    var l := s.records[q].lifecycle.value;
    forall d | 0 <= d < |l.drains| ensures l.drains[d].Settled() {
      if !l.drains[d].Settled() {
        UnfinishedAtMount(s, a, r, q, d);
      }
    }
  }

  // In such a run no cleanup of the record is unfinished when plugin.mount is called.
  lemma UninterruptedMountComesLast(actions: seq<Action>, s: Root, a: Action, r: nat, q: nat)
    requires UninterruptedRun(INITIAL_ROOT, actions, s, q) && CallsPluginMount(s, a, r)
    requires q < |s.records| && s.records[q].lifecycle.Some?
    ensures D.AllSettled(s.records[q].lifecycle.value)
  {
    UninterruptedWhole(INITIAL_ROOT, actions, s, q);
    assert Reachable(s);
    WholeSettled(s, a, r, q);
  }

  // A dispose leaves nothing of the lifecycle it tears down waiting, and makes a barrier for it.
  lemma DisposeTakesAll(s: Root, invalidate: bool, r: nat)
    requires Reachable(s) && r < |s.records| && s.records[r].lifecycle.Some?
    requires s.installed == Some(r) || (s.pending == Some(r) && s.records[r].attached)
    ensures var t := Dispose(s, invalidate);
      && t.records[r].lifecycle.Some? && t.records[r].aborted
      && D.Waiting(t.records[r].lifecycle.value) == []
      && t.teardown.Some? && t.installed == None && t.pending == None
  {
    ReachableInv(s);
    assert S.RecordOk(s, r);
    CleanupLeavesNothing(s.records[r].lifecycle.value, true);
    hide U.Inv, O.Own, W.Wait, D.Waiting, D.CleanupLifecycle, D.Inv, Reachable;
  }

  lemma CleanupLeavesNothing(l: D.Lifecycle, byDispose: bool)
    ensures D.Waiting(D.CleanupLifecycle(l, byDispose).0) == []
  {
    var m := D.CleanupLifecycle(l, byDispose).0;
    if D.Waiting(l) != [] {
      assert Reverse(m.cleanups) == [];
    }
  }

  // A mount that is disposed while plugin.mount is pending, with its hook still to run.
  function DisposedRecord(l: D.Lifecycle, point: MountPoint): Record {
    Record(1, true, None, point, true, Some(l))
  }

  function HookDrain(started: nat): D.Drain {
    D.Drain([D.UnmountHook], None, started, false, true)
  }

  function DisposedRoot(record: Record, settled: bool, teardown: Option<nat>): Root {
    Root(2, None, None, None, teardown, 1, None, [record], [Barrier(None, Some((0, 0)), settled)], [], [Unmounted])
  }

  function HookTaken(started: nat, order: seq<D.Callback>): D.Lifecycle {
    D.Lifecycle([], 0, false, true, false, Some(0), [HookDrain(started)], order, [])
  }

  function PendingRoot(point: MountPoint, attached: bool, lifecycle: Option<D.Lifecycle>): Root {
    Root(1, Some(0), Some(0), None, None, 0, None, [Record(1, false, None, point, attached, lifecycle)], [], [], [])
  }

  // A mount whose plugin.mount is pending.
  lemma MountPending() returns (s: Root)
    ensures Reachable(s) && s == PendingRoot(AwaitPluginMount, true, Some(D.FRESH_LIFECYCLE))
  {
    var s1 := Step(INITIAL_ROOT, DoMount(Importing));
    assert s1 == PendingRoot(AwaitImport, false, None);
    s := Step(s1, ImportSettles(0, Imported(true)));
    assert s.records == PendingRoot(AwaitPluginMount, true, Some(D.FRESH_LIFECYCLE)).records;
  }

  lemma DisposeWhilePending() returns (s: Root)
    ensures Reachable(s) && s == DisposedRoot(DisposedRecord(HookTaken(0, []), AwaitPluginMount), false, Some(0))
  {
    var s1 := MountPending();
    hide Reachable;
    assert D.Waiting(D.FRESH_LIFECYCLE) == [D.UnmountHook];
    s := Step(s1, DoUnmount);
    assert D.CleanupLifecycle(D.FRESH_LIFECYCLE, true).0 == HookTaken(0, []);
    assert s.records == [DisposedRecord(HookTaken(0, []), AwaitPluginMount)];
    assert s.history == [Unmounted];
  }

  lemma RunHook()
    ensures D.CanStart(HookTaken(0, []), 0)
    ensures var l := D.StartCallback(HookTaken(0, []), 0);
      D.CanSettle(l, 0) && D.SettleCallback(l, 0) == HookTaken(1, [D.UnmountHook])
  {
    var l := D.StartCallback(HookTaken(0, []), 0);
    assert D.SettleCallback(l, 0).drains == [HookDrain(1)];
    assert l.order == [D.UnmountHook];
  }

  lemma HookSettles() returns (s: Root)
    ensures Reachable(s)
    ensures s == DisposedRoot(DisposedRecord(HookTaken(1, [D.UnmountHook]), AwaitPluginMount), false, Some(0))
  {
    RunHook();
    var s0 := DisposeWhilePending();
    var l := D.StartCallback(HookTaken(0, []), 0);
    var s1 := Step(s0, StartCallback(0, 0));
    assert s1.records == [DisposedRecord(l, AwaitPluginMount)];
    s := Step(s1, SettleCallback(0, 0));
    assert s.records == [DisposedRecord(HookTaken(1, [D.UnmountHook]), AwaitPluginMount)];
  }

  lemma HookRuns() returns (s: Root)
    ensures Reachable(s)
    ensures s == DisposedRoot(DisposedRecord(HookTaken(1, [D.UnmountHook]), AwaitPluginMount), true, None)
  {
    s := HookSettles();
    s := Step(s, SettleBarrier(0));
    s := Step(s, ForgetBarrier(0));
  }

  // The returned cleanup, taken by the drain of the abandoned mount.
  function ReturnTaken(started: nat, running: bool, order: seq<D.Callback>): D.Lifecycle {
    D.Lifecycle(
      [], 0, true, true, true, Some(1),
      [HookDrain(1), D.Drain([D.MountReturn], Some(0), started, running, false)], order, [])
  }

  lemma ReturnRuns()
    ensures D.CleanupLifecycle(D.SetReturned(HookTaken(1, [D.UnmountHook]), true), false).0
      == ReturnTaken(0, false, [D.UnmountHook])
    ensures var l := ReturnTaken(0, false, [D.UnmountHook]);
      D.CanStart(l, 1) && D.StartCallback(l, 1) == ReturnTaken(1, true, [D.UnmountHook, D.MountReturn])
  {
    assert D.Waiting(D.SetReturned(HookTaken(1, [D.UnmountHook]), true)) == [D.MountReturn];
    var l := ReturnTaken(0, false, [D.UnmountHook]);
    assert l.drains[0] == HookDrain(1) && l.drains[0].Settled();
    assert D.StartCallback(l, 1).drains == ReturnTaken(1, true, []).drains;
    assert D.StartCallback(l, 1).order == [D.UnmountHook, D.MountReturn];
  }

  lemma ReturnedLate() returns (s: Root)
    ensures Reachable(s) && |s.records| == 1 && s.records[0].lifecycle == Some(ReturnTaken(0, false, [D.UnmountHook]))
    ensures s == DisposedRoot(s.records[0], true, None)
  {
    ReturnRuns();
    var s0 := HookRuns();
    s := Step(s0, PluginMountSettles(0, MountReturned(true, true)));
    assert s.records == [s.records[0]];
  }

  lemma ReturnRunning() returns (s: Root)
    ensures Reachable(s) && |s.records| == 1
    ensures s.records[0].lifecycle == Some(ReturnTaken(1, true, [D.UnmountHook, D.MountReturn]))
    ensures s == DisposedRoot(s.records[0], true, None)
  {
    ReturnRuns();
    var s0 := ReturnedLate();
    s := Step(s0, StartCallback(0, 1));
    assert s.records == [s.records[0]];
  }

  // The case that UnfinishedAtMount leaves does occur: the returned cleanup of a mount that was disposed
  // while plugin.mount was pending may still be running when the next plugin.mount is called.
  lemma AbandonedCleanupMayOverlapMount() returns (s: Root, a: Action)
    ensures Reachable(s) && CallsPluginMount(s, a, 1)
    ensures s.records[0].lifecycle.Some? && |s.records[0].lifecycle.value.drains| == 2
    ensures s.records[0].lifecycle.value.drains[1].running && !S.DisposeDrain(s, 0, 1)
    ensures s.records[0].lifecycle.value.drains[1].callbacks == [D.MountReturn]
  {
    var s0 := ReturnRunning();
    s := Step(s0, DoMount(Importing));
    a := ImportSettles(1, Imported(true));
  }

  lemma Step(s: Root, a: Action) returns (t: Root)
    requires Enabled(s, a) && (s == INITIAL_ROOT || Reachable(s))
    ensures t == Apply(s, a) && Reachable(t)
  {
    t := Apply(s, a);
    if s == INITIAL_ROOT {
      assert Run(INITIAL_ROOT, [], s);
    }
    var actions :| Run(INITIAL_ROOT, actions, s);
    RunAppend(INITIAL_ROOT, actions, s, a);
  }

  lemma {:induction false} RunAppend(s: Root, actions: seq<Action>, t: Root, a: Action)
    requires Run(s, actions, t) && Enabled(t, a)
    ensures Run(s, actions + [a], Apply(t, a))
    decreases |actions|
  {
    if actions == [] {
      assert [a][1..] == [];
      assert Run(Apply(s, a), [], Apply(t, a));
    } else {
      RunAppend(Apply(s, actions[0]), actions[1..], t, a);
      assert (actions + [a])[1..] == actions[1..] + [a];
    }
  }

  // ---- Cleanup callbacks -----------------------------------------------------------------------------

  // Over every run: each callback of each lifecycle runs at most once, drains run them in the order in
  // which they were taken, and within a drain in the order hook, return, registered in reverse.
  lemma CleanupOncePerCallback(s: Root, r: nat, c: D.Callback)
    requires Reachable(s) && r < |s.records| && s.records[r].lifecycle.Some?
    ensures var l := s.records[r].lifecycle.value;
      && Count(l.order, c) + Count(l.late, c) <= 1
      && l.order <= D.Taken(l.drains)
      && (forall d :: 0 <= d < |l.drains| ==> D.DrainOrder(l.drains[d].callbacks))
  {
    ReachableInv(s);
    assert S.RecordOk(s, r);
    var l := s.records[r].lifecycle.value;
    D.AtMostOnce(l, c);
    D.StartedIsPrefix(l.drains);
    forall d | 0 <= d < |l.drains| ensures D.DrainOrder(l.drains[d].callbacks) {
      assert D.DrainOk(l.drains, d);
    }
  }

  // At most one drained callback of a lifecycle is running at a time.
  lemma CleanupNeverOverlaps(s: Root, r: nat, d: nat, e: nat)
    requires Reachable(s) && r < |s.records| && s.records[r].lifecycle.Some?
    requires D.CanSettle(s.records[r].lifecycle.value, d) && D.CanSettle(s.records[r].lifecycle.value, e)
    ensures d == e
  {
    ReachableInv(s);
    assert S.RecordOk(s, r);
    D.NeverOverlap(s.records[r].lifecycle.value, d, e);
  }

  // A registered callback waits, has been taken by a drain, or ran when it was registered because the
  // controller was aborted already; it is in exactly one of these places, once.
  lemma RegistrationInOnePlace(s: Root, r: nat, i: nat)
    requires Reachable(s) && r < |s.records| && s.records[r].lifecycle.Some?
    requires i < s.records[r].lifecycle.value.registrations
    ensures var l := s.records[r].lifecycle.value;
      Count(D.Taken(l.drains), D.Registered(i)) + Count(l.cleanups, D.Registered(i)) + Count(l.late, D.Registered(i)) == 1
  {
    ReachableInv(s);
    assert S.RecordOk(s, r);
    D.RegistrationKept(s.records[r].lifecycle.value, i);
  }

  predicate TakenIn(s: Root, r: nat, c: D.Callback) {
    r < |s.records| && s.records[r].lifecycle.Some? && c in D.Taken(s.records[r].lifecycle.value.drains)
  }

  // Some continuation of the run takes the callback.
  ghost predicate CanBeTaken(s: Root, r: nat, c: D.Callback) {
    exists actions, t :: Run(s, actions, t) && TakenIn(t, r, c)
  }

  lemma WaitingOrTaken(l: D.Lifecycle, c: D.Callback)
    requires D.Inv(l) && c.Registered? && c.index < l.registrations && c !in l.late
    ensures c in D.Taken(l.drains) <==> c !in l.cleanups
  {
    D.RegistrationKept(l, c.index);
    CountMember(D.Taken(l.drains), c);
    CountMember(l.cleanups, c);
    CountMember(l.late, c);
  }

  // A waiting callback can still be taken if and only if its lifecycle is not stranded: once the mount has
  // ended and no slot holds the record, what is registered waits for ever.
  lemma WaitingTakenIff(s: Root, r: nat, c: D.Callback)
    requires Reachable(s) && r < |s.records| && s.records[r].lifecycle.Some?
    requires c in s.records[r].lifecycle.value.cleanups
    ensures CanBeTaken(s, r, c) <==> !W.Stranded(s, r)
  {
    ReachableInv(s);
    assert S.RecordOk(s, r);
    if W.Stranded(s, r) {
      if CanBeTaken(s, r, c) {
        var actions, t :| Run(s, actions, t) && TakenIn(t, r, c);
        RunInv(s, actions, t);
        W.RunStranded(s, actions, t, r);
        assert S.RecordOk(t, r);
        NotBoth(t.records[r].lifecycle.value, c);
      }
    } else {
      var l := s.records[r].lifecycle.value;
      NotLate(l, c);
      var a := W.TakingStep(s, r);
      W.TakingStepEmpties(s, r);
      StepInv(s, a);
      var t := Apply(s, a);
      assert S.RecordOk(t, r);
      WaitingOrTaken(t.records[r].lifecycle.value, c);
      assert Run(t, [], t) && [a][1..] == [];
      assert Run(s, [a], t) && TakenIn(t, r, c);
    }
  }

  lemma NotBoth(l: D.Lifecycle, c: D.Callback)
    requires D.Inv(l) && c in l.cleanups
    ensures c !in D.Taken(l.drains)
  {
    NotLate(l, c);
    WaitingOrTaken(l, c);
  }

  lemma NotLate(l: D.Lifecycle, c: D.Callback)
    requires D.Inv(l) && c in l.cleanups
    ensures c.Registered? && c.index < l.registrations && c !in l.late
  {
    D.RegistrationKept(l, c.index);
    CountMember(l.cleanups, c);
    CountMember(l.late, c);
  }

  function DisconnectedRecord(l: D.Lifecycle, point: MountPoint): Record {
    Record(1, false, None, point, true, Some(l))
  }

  function OwnDrain(started: nat, running: bool): D.Drain {
    D.Drain([D.UnmountHook], None, started, running, false)
  }

  function OwnTaken(started: nat, running: bool, order: seq<D.Callback>): D.Lifecycle {
    D.Lifecycle([], 0, false, true, false, Some(0), [OwnDrain(started, running)], order, [])
  }

  function DisconnectedRoot(record: Record): Root {
    Root(1, Some(0), Some(0), None, None, 0, None, [record], [], [], [])
  }

  // A mount that finds its root disconnected after plugin.mount cleans up without aborting.
  lemma DisconnectedMount() returns (s: Root)
    ensures Reachable(s)
    ensures s == DisconnectedRoot(DisconnectedRecord(OwnTaken(0, false, []), AwaitCleanup(Some(0))))
  {
    var s2 := MountPending();
    hide Reachable;
    assert D.Waiting(D.SetReturned(D.FRESH_LIFECYCLE, false)) == [D.UnmountHook];
    s := Step(s2, PluginMountSettles(0, MountReturned(false, false)));
    assert D.CleanupLifecycle(D.SetReturned(D.FRESH_LIFECYCLE, false), false).0 == OwnTaken(0, false, []);
    assert s.records == [DisconnectedRecord(OwnTaken(0, false, []), AwaitCleanup(Some(0)))];
  }

  lemma DisconnectedCleanedUp() returns (s: Root)
    ensures Reachable(s)
    ensures s == DisconnectedRoot(DisconnectedRecord(OwnTaken(1, false, [D.UnmountHook]), Done))
  {
    var s0 := DisconnectedMount();
    var running := OwnTaken(1, true, [D.UnmountHook]);
    assert D.StartCallback(OwnTaken(0, false, []), 0).drains == running.drains;
    assert D.StartCallback(OwnTaken(0, false, []), 0).order == running.order;
    var s1 := Step(s0, StartCallback(0, 0));
    assert s1.records == [DisconnectedRecord(running, AwaitCleanup(Some(0)))];
    assert D.SettleCallback(running, 0).drains == [OwnDrain(1, false)];
    var s2 := Step(s1, SettleCallback(0, 0));
    assert s2.records == [DisconnectedRecord(OwnTaken(1, false, [D.UnmountHook]), AwaitCleanup(Some(0)))];
    s := Step(s2, CleanupAwaited(0));
    assert s.records == [DisconnectedRecord(OwnTaken(1, false, [D.UnmountHook]), Done)];
  }

  // Such a lifecycle does occur: a callback that its plugin registers afterwards is never run.
  lemma RegistrationMayBeStranded() returns (s: Root)
    ensures Reachable(s) && W.Stranded(s, 0) && !s.records[0].aborted
    ensures s.records[0].lifecycle.value.cleanups == [D.Registered(0)]
    ensures !CanBeTaken(s, 0, D.Registered(0))
  {
    var s0 := DisconnectedCleanedUp();
    var s1 := Step(s0, HandleTask(0));
    s := Step(s1, DoRegister(0));
    assert s.records[0].lifecycle.value.cleanups == [D.Registered(0)];
    WaitingTakenIff(s, 0, D.Registered(0));
  }

  // Some drain of the record up to the k-th can start or settle a callback.
  ghost predicate CanMove(s: Root, r: nat, k: nat) {
    exists d: nat :: d <= k && (Enabled(s, StartCallback(r, d)) || Enabled(s, SettleCallback(r, d)))
  }

  lemma {:induction false} RunLeft(s: Root, actions: seq<Action>, t: Root, r: nat, k: nat)
    requires Inv(s) && Run(s, actions, t) && M.Running(s, r) && k < |M.DrainsOf(s, r)|
    ensures Inv(t) && M.StillTaken(s, t, r, k)
    ensures M.LeftTo(t, r, k) == M.LeftTo(s, r, k) - M.MovesTo(actions, r, k)
    decreases |actions|
  {
    if actions != [] {
      StepInv(s, actions[0]);
      M.StepLeft(s, actions[0], r, k);
      RunLeft(Apply(s, actions[0]), actions[1..], t, r, k);
    }
  }

  // A callback that drain k has taken runs exactly once, provided running callbacks settle, whatever else
  // happens to the root in between: what is left up to that drain falls by one with each of its moves and
  // with nothing else; while something is left there is such a move; and when nothing is left it has run.
  lemma TakenCallbackRuns(s: Root, actions: seq<Action>, t: Root, r: nat, k: nat, c: D.Callback)
    requires Reachable(s) && Run(s, actions, t) && M.Running(s, r) && k < |M.DrainsOf(s, r)|
    requires c in M.DrainsOf(s, r)[k].callbacks
    ensures M.StillTaken(s, t, r, k)
    ensures 0 <= M.LeftTo(t, r, k) == M.LeftTo(s, r, k) - M.MovesTo(actions, r, k)
    ensures M.LeftTo(t, r, k) > 0 ==> CanMove(t, r, k)
    ensures M.LeftTo(t, r, k) == 0 ==> Count(t.records[r].lifecycle.value.order, c) == 1
  {
    ReachableInv(s);
    RunLeft(s, actions, t, r, k);
    assert S.RecordOk(t, r);
    hide Reachable, Run, Inv, D.Inv, D.Remaining;
    M.LeftIsSettled(t.records[r].lifecycle.value, k);
    if M.LeftTo(t, r, k) > 0 {
      SomethingLeft(t, r, k);
    } else {
      NothingLeft(t.records[r].lifecycle.value, k, c);
    }
  }

  lemma SomethingLeft(s: Root, r: nat, k: nat)
    requires M.Running(s, r) && D.Inv(s.records[r].lifecycle.value) && k < |M.DrainsOf(s, r)| && M.LeftTo(s, r, k) > 0
    ensures CanMove(s, r, k)
  {
    var d := M.LeftCanMove(s.records[r].lifecycle.value, k);
    hide D.Inv, D.Remaining;
    assert Enabled(s, StartCallback(r, d)) || Enabled(s, SettleCallback(r, d));
  }

  lemma NothingLeft(l: D.Lifecycle, k: nat, c: D.Callback)
    requires D.Inv(l) && k < |l.drains| && M.SettledTo(l, k) && c in l.drains[k].callbacks
    ensures Count(l.order, c) == 1
  {
    SettledDrainRan(l.drains, k, c);
    CountMember(l.order, c);
    D.AtMostOnce(l, c);
  }

  // ---- Generations -----------------------------------------------------------------------------------

  // An installed lifecycle has a live controller and comes from the record of the current generation.
  lemma InstalledIsLive(s: Root, r: nat)
    requires Reachable(s) && s.installed == Some(r)
    ensures r < |s.records| && s.records[r].generation == s.generation && !s.records[r].aborted
    ensures forall q :: 0 <= q < |s.records| && s.records[q].generation == s.generation ==> q == r
    ensures forall q: nat :: IsCurrent(s, q) ==> q == r
  {
    ReachableInv(s);
  }

  ghost predicate Superseded(s: Root, r: nat) {
    r < |s.records| && s.records[r].generation < s.generation
  }

  ghost predicate Later(s: Root, t: Root) {
    && s.generation <= t.generation
    && |s.records| <= |t.records|
    && (forall r :: 0 <= r < |s.records| ==> t.records[r].generation == s.records[r].generation)
  }

  lemma MountLater(s: Root, begin: Begin)
    ensures Later(s, Mount(s, begin).0)
  {
  }

  lemma TearDownTargetLater(s: Root, target: Option<nat>)
    ensures Later(s, TearDownTarget(s, target))
  {
  }

  lemma DisposeLater(s: Root, invalidate: bool)
    ensures Later(s, Dispose(s, invalidate)) && Dispose(s, invalidate).generation == s.generation + 1
  {
    TearDownTargetLater(Detach(s, invalidate), s.installed);
    TearDownTargetLater(TearDownTarget(Detach(s, invalidate), s.installed), Provisional(s));
  }

  lemma TryUpdateLater(s: Root, u: nat, env: UpdateEnv, lifecycle: nat)
    requires u < |s.updates|
    ensures Later(s, TryUpdate(s, u, env, lifecycle))
  {
    DisposeLater(s, false);
    U.DisposeUpdates(s, false);
    var disposed := Dispose(s, false);
    var written := if s.updates[u].prepared then disposed.(history := disposed.history + [WroteRoot(u)]) else disposed;
    MountLater(written, env.begin);
    U.MountSame(written, env.begin);
  }

  lemma StartUpdateLater(s: Root, u: nat, env: UpdateEnv)
    requires u < |s.updates|
    ensures Later(s, StartUpdate(s, u, env)) && Later(s, AfterActiveMount(s, u, env)) && Later(s, AfterOwnMount(s, u, env))
  {
    MountLater(s, env.begin);
    if s.installed.Some? {
      TryUpdateLater(s, u, env, s.installed.value);
    }
  }

  lemma RecordActionLater(s: Root, a: Action)
    requires Enabled(s, a)
    requires a.ResumeMount? || a.ImportSettles? || a.PluginMountSettles? || a.CleanupAwaited? || a.DoRegister?
      || a.StartCallback? || a.SettleCallback? || a.ForgetDrain?
    ensures Later(s, Apply(s, a))
  {
    hide D.CleanupLifecycle, D.StartCallback, D.SettleCallback, D.ForgetDrain, D.Register;
  }

  lemma StepLater(s: Root, a: Action)
    requires Enabled(s, a)
    ensures Later(s, Apply(s, a))
  {
    hide Mount, Dispose, BeginMount, AfterImport, AfterPluginMount, StartUpdate, AfterActiveMount, AfterOwnMount;
    match a
    case DoMount(begin) => MountLater(s, begin);
    case DoUnmount => DisposeLater(s, true);
    case DoUpdate(prepared, env) =>
      var u := |s.updates|;
      var enqueued := s.(updates := s.updates + [Update(s.epoch, prepared, s.queue, Queued)],
                         history := s.history + [Enqueued(u)]);
      StartUpdateLater(enqueued, u, env);
    case BeginQueued(u, env) => StartUpdateLater(s, u, env);
    case ActiveMountAwaited(u, env) => StartUpdateLater(s, u, env);
    case OwnMountAwaited(u, env) => StartUpdateLater(s, u, env);
    case HandleTask(_) =>
    case SettleBarrier(_) =>
    case ForgetBarrier(_) =>
    case PluginUpdateSettles(_, _) =>
    case RemountAwaited(_) =>
    case ForgetUpdate(_) =>
    case _ => RecordActionLater(s, a);
  }

  // A superseded record stays superseded over every further run: it never becomes current again and
  // never installs its lifecycle.
  lemma {:induction false} SupersededForever(s: Root, actions: seq<Action>, t: Root, r: nat)
    requires Reachable(s) && Superseded(s, r) && Run(s, actions, t)
    ensures Superseded(t, r) && !IsCurrent(t, r) && t.installed != Some(r)
    decreases |actions|
  {
    if actions == [] {
      ReachableInv(s);
    } else {
      StepLater(s, actions[0]);
      var u := Step(s, actions[0]);
      SupersededForever(u, actions[1..], t, r);
    }
  }

  // Every dispose and every mount that starts supersedes all records before it.
  lemma DisposeAndMountSupersede(s: Root, invalidate: bool, begin: Begin, r: nat)
    requires Reachable(s) && r < |s.records|
    ensures Superseded(Dispose(s, invalidate), r)
    ensures Mount(s, begin).1.Some? ==> Superseded(Mount(s, begin).0, r)
  {
    ReachableInv(s);
    assert S.RecordOk(s, r);
    hide Inv, Dispose;
    DisposeLater(s, invalidate);
  }

  // ---- Updates ---------------------------------------------------------------------------------------

  // Updates of one epoch run one at a time, in the order of the calls.
  lemma UpdatesRunInCallOrder(s: Root, u: nat, v: nat)
    requires Reachable(s) && u < v < |s.updates| && s.updates[u].epoch == s.updates[v].epoch
    requires s.updates[v].point != Queued
    ensures s.updates[u].point == Finished
  {
    ReachableInv(s);
    assert U.UpdateOk(s, v);
  }

  lemma {:induction false} UnmountsMonotone(history: seq<Event>, i: nat, k: nat)
    requires i <= k <= |history|
    ensures U.Unmounts(history[..i]) <= U.Unmounts(history[..k])
    ensures i < k && history[i].Unmounted? ==> U.Unmounts(history[..i]) < U.Unmounts(history[..k])
    decreases k
  {
    if i < k {
      UnmountsMonotone(history, i, k - 1);
      assert history[..k][..k - 1] == history[..k - 1];
    }
  }

  // An update enqueued before an unmount never writes lifecycle.props or the root's props after it.
  lemma NoWriteAfterUnmount(s: Root, u: nat, i: nat, j: nat, k: nat)
    requires Reachable(s) && i < j < k < |s.history|
    requires s.history[i] == Enqueued(u) && s.history[j] == Unmounted
    ensures s.history[k] != WroteLifecycle(u) && s.history[k] != WroteRoot(u)
  {
    ReachableInv(s);
    assert U.EventOk(s, i) && U.EventOk(s, k);
    UnmountsMonotone(s.history, i, j);
    UnmountsMonotone(s.history, j, k);
  }

  // ---- Any number of roots ---------------------------------------------------------------------------

  // The runtime keeps one entry per root; a root without an entry is in its initial state.
  function RootState(world: map<nat, Root>, root: nat): Root {
    if root in world then world[root] else INITIAL_ROOT
  }

  ghost predicate WorldRun(world: map<nat, Root>, actions: seq<(nat, Action)>, final: map<nat, Root>)
    decreases |actions|
  {
    if actions == [] then world == final
    else
      var (root, a) := actions[0];
      && Enabled(RootState(world, root), a)
      && WorldRun(world[root := Apply(RootState(world, root), a)], actions[1..], final)
  }

  // In every interleaving of the actions of any number of roots, each root is in a reachable state, so
  // everything above holds for each of them at every step.
  lemma {:induction false} EveryRootReachable(world: map<nat, Root>, actions: seq<(nat, Action)>, final: map<nat, Root>, root: nat)
    requires forall q: nat :: Reachable(RootState(world, q))
    requires WorldRun(world, actions, final)
    ensures Reachable(RootState(final, root))
    decreases |actions|
  {
    if actions != [] {
      var (q, a) := actions[0];
      var t := Step(RootState(world, q), a);
      var next := world[q := t];
      forall p: nat ensures Reachable(RootState(next, p)) {
        assert Reachable(RootState(world, p));
      }
      EveryRootReachable(next, actions[1..], final, root);
    }
  }

  lemma WorldStartsReachable(actions: seq<(nat, Action)>, final: map<nat, Root>, root: nat)
    requires WorldRun(map[], actions, final)
    ensures Reachable(RootState(final, root))
  {
    assert Run(INITIAL_ROOT, [], INITIAL_ROOT);
    EveryRootReachable(map[], actions, final, root);
  }
}
