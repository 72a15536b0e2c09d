// Callbacks that wait in a lifecycle: which of them a drain can still take.
module AdapterStranded {
  import opened Prelude
  import opened AdapterProtocol
  import D = Drains
  import S = AdapterSafety
  import U = AdapterUpdates

  // The mount of the record has ended and no slot leads to its lifecycle.
  predicate Stranded(s: Root, r: nat) {
    && r < |s.records| && s.records[r].lifecycle.Some? && s.records[r].point == Done
    && s.pending != Some(r) && s.installed != Some(r)
  }

  // ---- Stranded for ever -----------------------------------------------------------------------------

  ghost predicate StaysStranded(s: Root, t: Root, r: nat)
    requires Stranded(s, r)
  {
    Stranded(t, r) && s.records[r].lifecycle.value.cleanups <= t.records[r].lifecycle.value.cleanups
  }

  lemma MountStranded(s: Root, begin: Begin, r: nat)
    requires Stranded(s, r)
    ensures StaysStranded(s, Mount(s, begin).0, r)
  {
  }

  lemma TearDownStranded(s: Root, target: Option<nat>, r: nat)
    requires Stranded(s, r) && target != Some(r)
    ensures StaysStranded(s, TearDownTarget(s, target), r)
  {
  }

  lemma DisposeStranded(s: Root, invalidate: bool, r: nat)
    requires Stranded(s, r)
    ensures StaysStranded(s, Dispose(s, invalidate), r)
  {
    assert StaysStranded(s, Detach(s, invalidate), r);
    TearDownStranded(Detach(s, invalidate), s.installed, r);
    TearDownStranded(TearDownTarget(Detach(s, invalidate), s.installed), Provisional(s), r);
  }

  lemma TryUpdateStranded(s: Root, u: nat, env: UpdateEnv, lifecycle: nat, r: nat)
    requires Stranded(s, r) && u < |s.updates|
    ensures StaysStranded(s, TryUpdate(s, u, env, lifecycle), r)
  {
    var disposed := Dispose(s, false);
    DisposeStranded(s, false, r);
    U.DisposeUpdates(s, false);
    var written := if s.updates[u].prepared then disposed.(history := disposed.history + [WroteRoot(u)]) else disposed;
    MountStranded(written, env.begin, r);
    U.MountSame(written, env.begin);
  }

  lemma StartUpdateStranded(s: Root, u: nat, env: UpdateEnv, r: nat)
    requires Stranded(s, r) && u < |s.updates|
    ensures StaysStranded(s, StartUpdate(s, u, env), r)
    ensures StaysStranded(s, AfterActiveMount(s, u, env), r)
    ensures StaysStranded(s, AfterOwnMount(s, u, env), r)
  {
    MountStranded(s, env.begin, r);
    U.MountSame(s, env.begin);
    if s.installed.Some? {
      TryUpdateStranded(s, u, env, s.installed.value, r);
    }
  }

  // Callbacks of the record itself.
  lemma CallbackActionStranded(s: Root, a: Action, r: nat)
    requires Stranded(s, r) && Enabled(s, a)
    requires a.DoRegister? || a.StartCallback? || a.SettleCallback? || a.ForgetDrain?
    ensures StaysStranded(s, Apply(s, a), r)
  {
  }

  // The blocks of other mounts.
  lemma RecordActionStranded(s: Root, a: Action, r: nat)
    requires Stranded(s, r) && Enabled(s, a)
    requires a.ResumeMount? || a.ImportSettles? || a.PluginMountSettles? || a.CleanupAwaited? || a.HandleTask?
    ensures StaysStranded(s, Apply(s, a), r)
  {
    hide D.CleanupLifecycle;
  }

  // Blocks that leave the records alone.
  lemma RootActionStranded(s: Root, a: Action, r: nat)
    requires Stranded(s, r) && Enabled(s, a)
    requires a.SettleBarrier? || a.ForgetBarrier? || a.PluginUpdateSettles? || a.RemountAwaited? || a.ForgetUpdate?
    ensures StaysStranded(s, Apply(s, a), r)
  {
  }

  lemma StepStranded(s: Root, a: Action, r: nat)
    requires Stranded(s, r) && Enabled(s, a)
    ensures StaysStranded(s, Apply(s, a), r)
  {
    hide Mount, Dispose, BeginMount, AfterImport, AfterPluginMount, StartUpdate, AfterActiveMount, AfterOwnMount;
    match a
    case DoMount(begin) => MountStranded(s, begin, r);
    case DoUnmount => DisposeStranded(s, true, r);
    case DoUpdate(prepared, env) =>
      var u := |s.updates|;
      var enqueued := s.(updates := s.updates + [Update(s.epoch, prepared, s.queue, Queued)],
                         history := s.history + [Enqueued(u)]);
      StartUpdateStranded(enqueued, u, env, r);
    case BeginQueued(u, env) => StartUpdateStranded(s, u, env, r);
    case ActiveMountAwaited(u, env) => StartUpdateStranded(s, u, env, r);
    case OwnMountAwaited(u, env) => StartUpdateStranded(s, u, env, r);
    case SettleBarrier(_) => RootActionStranded(s, a, r);
    case ForgetBarrier(_) => RootActionStranded(s, a, r);
    case PluginUpdateSettles(_, _) => RootActionStranded(s, a, r);
    case RemountAwaited(_) => RootActionStranded(s, a, r);
    case ForgetUpdate(_) => RootActionStranded(s, a, r);
    case DoRegister(_) => CallbackActionStranded(s, a, r);
    case StartCallback(_, _) => CallbackActionStranded(s, a, r);
    case SettleCallback(_, _) => CallbackActionStranded(s, a, r);
    case ForgetDrain(_, _) => CallbackActionStranded(s, a, r);
    case _ => RecordActionStranded(s, a, r);
  }

  lemma {:induction false} RunStranded(s: Root, actions: seq<Action>, t: Root, r: nat)
    requires Stranded(s, r) && Run(s, actions, t)
    ensures StaysStranded(s, t, r)
    decreases |actions|
  {
    if actions != [] {
      StepStranded(s, actions[0], r);
      RunStranded(Apply(s, actions[0]), actions[1..], t, r);
    }
  }

  // ---- Otherwise a slot or the mount leads to the lifecycle ------------------------------------------

  predicate Held(s: Root, q: nat)
    requires q < |s.records|
  {
    s.pending == Some(q) && s.records[q].attached
  }

  ghost predicate WaitOk(s: Root, q: nat)
    requires q < |s.records|
  {
    s.records[q].lifecycle.Some? ==>
      && (s.records[q].aborted ==> s.records[q].lifecycle.value.cleanups == [])
      && (s.pending == Some(q) ==> s.records[q].attached || s.installed == Some(q))
      && (s.records[q].point.AwaitPluginMount? || s.records[q].point.AwaitCleanup? ==> s.records[q].aborted || Held(s, q))
  }

  ghost predicate Wait(s: Root) {
    forall q :: 0 <= q < |s.records| ==> WaitOk(s, q)
  }

  lemma MountWait(s: Root, begin: Begin)
    requires S.Core(s) && Wait(s)
    ensures Wait(Mount(s, begin).0)
  {
    var t := Mount(s, begin).0;
    forall q | 0 <= q < |t.records| ensures WaitOk(t, q) {
      if q < |s.records| {
        assert WaitOk(s, q);
      }
    }
  }

  lemma SetRecordWait(s: Root, r: nat, record: Record)
    requires Wait(s) && r < |s.records| && WaitOk(SetRecord(s, r, record), r)
    ensures Wait(SetRecord(s, r, record))
  {
    var t := SetRecord(s, r, record);
    forall q | 0 <= q < |t.records| ensures WaitOk(t, q) {
      assert WaitOk(s, q);
    }
  }

  lemma CleanupEmpties(l: D.Lifecycle, byDispose: bool)
    ensures D.CleanupLifecycle(l, byDispose).0.cleanups == []
  {
    if D.Waiting(l) == [] {
      assert |D.Waiting(l)| >= |Reverse(l.cleanups)| == |l.cleanups|;
    }
  }

  lemma AfterPluginMountWait(s: Root, r: nat, outcome: MountOutcome)
    requires S.Core(s) && Wait(s) && At(s, r, AwaitPluginMount) && s.records[r].lifecycle.Some?
    ensures Wait(AfterPluginMount(s, r, outcome))
  {
    var t := AfterPluginMount(s, r, outcome);
    CleanupEmpties(s.records[r].lifecycle.value, false);
    if outcome.MountReturned? {
      CleanupEmpties(D.SetReturned(s.records[r].lifecycle.value, outcome.isFunction), false);
    }
    forall q | 0 <= q < |t.records| ensures WaitOk(t, q) {
      assert WaitOk(s, q);
    }
  }

  predicate SameSlots(s: Root, t: Root) {
    t.pending == s.pending && t.installed == s.installed
  }

  // Only the lifecycle of a record changes, and only what waits in it.
  predicate TornDown(before: Record, after: Record, target: bool) {
    && after == before.(lifecycle := after.lifecycle)
    && after.lifecycle.Some? == before.lifecycle.Some?
    && (before.lifecycle.Some? ==>
          after.lifecycle.value.cleanups == if target then [] else before.lifecycle.value.cleanups)
  }

  // What a dispose does to one record.
  lemma TearDownTargetRecord(s: Root, target: Option<nat>, q: nat)
    requires q < |s.records|
    ensures var t := TearDownTarget(s, target);
      && |t.records| == |s.records| && SameSlots(s, t)
      && TornDown(s.records[q], t.records[q], target == Some(q))
  {
    if HasLifecycle(s, target) {
      CleanupEmpties(s.records[target.value].lifecycle.value, true);
    }
  }

  lemma DetachRecord(s: Root, invalidate: bool, q: nat)
    requires q < |s.records|
    ensures var record := Detach(s, invalidate).records[q];
      && record == s.records[q].(aborted := record.aborted)
      && record.aborted == (s.records[q].aborted || s.pending == Some(q) || s.installed == Some(q))
  {
  }

  // Once the slots are empty and what they held has been torn down, a record needs no slot.
  lemma EmptiedWaits(s: Root, t: Root, q: nat)
    requires q < |s.records| && q < |t.records| && WaitOk(s, q) && t.pending.None? && t.installed.None?
    requires t.records[q] == s.records[q].(aborted := t.records[q].aborted, lifecycle := t.records[q].lifecycle)
    requires t.records[q].aborted == (s.records[q].aborted || s.pending == Some(q) || s.installed == Some(q))
    requires t.records[q].lifecycle.Some? == s.records[q].lifecycle.Some?
    requires t.records[q].lifecycle.Some? ==>
      t.records[q].lifecycle.value.cleanups ==
        if s.installed == Some(q) || Provisional(s) == Some(q) then [] else s.records[q].lifecycle.value.cleanups
    ensures WaitOk(t, q)
  {
  }

  lemma DisposeRecordWait(s: Root, invalidate: bool, q: nat)
    requires S.Core(s) && q < |s.records| && WaitOk(s, q)
    ensures q < |Dispose(s, invalidate).records| && WaitOk(Dispose(s, invalidate), q)
  {
    var detached := Detach(s, invalidate);
    var first := TearDownTarget(detached, s.installed);
    DetachRecord(s, invalidate, q);
    TearDownTargetRecord(detached, s.installed, q);
    TearDownTargetRecord(first, Provisional(s), q);
    EmptiedWaits(s, Dispose(s, invalidate), q);
  }

  lemma DisposeWait(s: Root, invalidate: bool)
    requires S.Core(s) && Wait(s)
    ensures Wait(Dispose(s, invalidate))
  {
    assert |Dispose(s, invalidate).records| == |s.records|;
    forall q | 0 <= q < |s.records| ensures WaitOk(Dispose(s, invalidate), q) {
      DisposeRecordWait(s, invalidate, q);
    }
  }

  lemma TryUpdateWait(s: Root, u: nat, env: UpdateEnv, lifecycle: nat)
    requires S.Core(s) && Wait(s) && u < |s.updates|
    ensures Wait(TryUpdate(s, u, env, lifecycle))
  {
    if env.hasUpdate || (!s.updates[u].prepared && env.parseFails) {
      SameWait(s, TryUpdate(s, u, env, lifecycle));
    } else {
      var disposed := Dispose(s, false);
      S.DisposeCore(s, false);
      DisposeWait(s, false);
      U.DisposeUpdates(s, false);
      var written := if s.updates[u].prepared then disposed.(history := disposed.history + [WroteRoot(u)]) else disposed;
      S.UpdatesFrame(disposed, written);
      SameWait(disposed, written);
      MountWait(written, env.begin);
      U.MountSame(written, env.begin);
      SameWait(Mount(written, env.begin).0, TryUpdate(s, u, env, lifecycle));
    }
  }

  lemma SameWait(s: Root, t: Root)
    requires Wait(s) && t.records == s.records && t.pending == s.pending && t.installed == s.installed
    ensures Wait(t)
  {
    forall q | 0 <= q < |t.records| ensures WaitOk(t, q) {
      assert WaitOk(s, q);
    }
  }

  lemma StartUpdateWait(s: Root, u: nat, env: UpdateEnv)
    requires S.Core(s) && Wait(s) && u < |s.updates|
    ensures Wait(StartUpdate(s, u, env)) && Wait(AfterActiveMount(s, u, env)) && Wait(AfterOwnMount(s, u, env))
  {
    SameWait(s, SetUpdate(s, u, Finished));
    if s.mountTask.Some? {
      SameWait(s, SetUpdate(s, u, AwaitActiveMount(s.mountTask.value)));
    }
    if s.installed.Some? {
      TryUpdateWait(s, u, env, s.installed.value);
    } else {
      var (mounted, task) := Mount(s, env.begin);
      MountWait(s, env.begin);
      U.MountSame(s, env.begin);
      SameWait(mounted, SetUpdate(mounted, u, AwaitOwnMount(task)));
    }
  }

  lemma CallUpdateWait(s: Root, prepared: bool, env: UpdateEnv)
    requires S.Core(s) && Wait(s)
    ensures Wait(CallUpdate(s, prepared, env))
  {
    var u := |s.updates|;
    var enqueued := s.(updates := s.updates + [Update(s.epoch, prepared, s.queue, Queued)],
                       history := s.history + [Enqueued(u)]);
    S.UpdatesFrame(s, enqueued);
    SameWait(s, enqueued);
    if s.queue.None? {
      StartUpdateWait(enqueued, u, env);
      SameWait(StartUpdate(enqueued, u, env), CallUpdate(s, prepared, env));
    } else {
      SameWait(enqueued, CallUpdate(s, prepared, env));
    }
  }

  lemma MountActionWait(s: Root, a: Action)
    requires S.Core(s) && Wait(s) && Enabled(s, a)
    requires a.ResumeMount? || a.ImportSettles? || a.CleanupAwaited?
    ensures Wait(Apply(s, a))
  {
    var r := a.record;
    assert S.RecordOk(s, r) && WaitOk(s, r);
    hide S.Core, Wait;
    SetRecordWait(s, r, Apply(s, a).records[r]);
  }

  lemma CallbackActionWait(s: Root, a: Action)
    requires Wait(s) && Enabled(s, a)
    requires a.DoRegister? || a.StartCallback? || a.SettleCallback? || a.ForgetDrain?
    ensures Wait(Apply(s, a))
  {
    var r := a.record;
    assert WaitOk(s, r);
    hide Wait;
    SetRecordWait(s, r, Apply(s, a).records[r]);
  }

  lemma HandleTaskWait(s: Root, r: nat)
    requires Wait(s) && At(s, r, Done)
    ensures Wait(TaskHandler(s, r))
  {
    var t := TaskHandler(s, r);
    forall q | 0 <= q < |t.records| ensures WaitOk(t, q) {
      assert WaitOk(s, q);
    }
  }

  lemma StepWait(s: Root, a: Action)
    requires S.Core(s) && Wait(s) && Enabled(s, a)
    ensures Wait(Apply(s, a))
  {
    hide S.Core, Wait, Mount, Dispose, CallUpdate, BeginMount, AfterImport, AfterPluginMount, StartUpdate, AfterActiveMount, AfterOwnMount;
    match a
    case DoMount(begin) => MountWait(s, begin);
    case DoUnmount => DisposeWait(s, true);
    case DoUpdate(prepared, env) => CallUpdateWait(s, prepared, env);
    case PluginMountSettles(r, mounted) => AfterPluginMountWait(s, r, mounted);
    case HandleTask(r) => HandleTaskWait(s, r);
    case BeginQueued(u, env) => StartUpdateWait(s, u, env);
    case ActiveMountAwaited(u, env) => StartUpdateWait(s, u, env);
    case OwnMountAwaited(u, env) => StartUpdateWait(s, u, env);
    case SettleBarrier(_) => SameWait(s, Apply(s, a));
    case ForgetBarrier(_) => SameWait(s, Apply(s, a));
    case PluginUpdateSettles(_, _) => SameWait(s, Apply(s, a));
    case RemountAwaited(_) => SameWait(s, Apply(s, a));
    case ForgetUpdate(_) => SameWait(s, Apply(s, a));
    case DoRegister(_) => CallbackActionWait(s, a);
    case StartCallback(_, _) => CallbackActionWait(s, a);
    case SettleCallback(_, _) => CallbackActionWait(s, a);
    case ForgetDrain(_, _) => CallbackActionWait(s, a);
    case _ => MountActionWait(s, a);
  }

  // The step that takes what waits in a lifecycle that is not stranded.
  function TakingStep(s: Root, r: nat): Action {
    if At(s, r, AwaitPluginMount) then PluginMountSettles(r, MountThrew) else DoUnmount
  }

  lemma TakingStepEmpties(s: Root, r: nat)
    requires S.Core(s) && Wait(s) && r < |s.records| && s.records[r].lifecycle.Some?
    requires s.records[r].lifecycle.value.cleanups != [] && !Stranded(s, r)
    ensures Enabled(s, TakingStep(s, r))
    ensures var t := Apply(s, TakingStep(s, r));
      r < |t.records| && t.records[r].lifecycle.Some? && t.records[r].lifecycle.value.cleanups == []
    ensures Apply(s, TakingStep(s, r)).records[r].lifecycle.value.registrations == s.records[r].lifecycle.value.registrations
    ensures Apply(s, TakingStep(s, r)).records[r].lifecycle.value.late == s.records[r].lifecycle.value.late
  {
    assert S.RecordOk(s, r) && WaitOk(s, r);
    CleanupEmpties(s.records[r].lifecycle.value, false);
    CleanupEmpties(s.records[r].lifecycle.value, true);
  }
}
