// The cleanup that mountInternal starts itself, next to those that dispose starts: an invariant that says
// who waits for the drains of a lifecycle, and what a lifecycle can still take after a dispose.
module AdapterOwnCleanup {
  import opened Prelude
  import opened AdapterProtocol
  import D = Drains
  import S = AdapterSafety
  import U = AdapterUpdates

  // ---- Invariant -------------------------------------------------------------------------------------

  // A dispose was the first to clean this lifecycle up.
  predicate DisposedFirst(l: D.Lifecycle) {
    l.drains != [] && l.drains[0].byDispose
  }

  // mountInternal was the first to clean this lifecycle up.
  predicate OwnFirst(l: D.Lifecycle) {
    l.drains != [] && !l.drains[0].byDispose
  }

  // After the first drain only the returned cleanup can be left to take.
  predicate AtMostReturn(l: D.Lifecycle) {
    || |l.drains| == 1
    || (|l.drains| == 2 && l.returnedTaken && l.drains[1].callbacks == [D.MountReturn])
  }

  ghost predicate ShapeOk(record: Record) {
    record.lifecycle.Some? ==>
      var l := record.lifecycle.value;
      && (l.unmountTaken <==> l.drains != [])
      && (DisposedFirst(l) ==> record.aborted && l.cleanups == [] && AtMostReturn(l))
      && (record.point == AwaitPluginMount ==> !OwnFirst(l) && !l.returned && !l.returnedTaken)
  }

  // The mount task of the record waits for its only drain.
  ghost predicate Awaited(s: Root, q: nat)
    requires q < |s.records| && s.records[q].lifecycle.Some?
  {
    && s.pending == Some(q) && s.records[q].attached
    && s.records[q].point == AwaitCleanup(Some(0))
    && |s.records[q].lifecycle.value.drains| == 1
  }

  ghost predicate SettledOrCovered(s: Root, q: nat)
    requires q < |s.records| && s.records[q].lifecycle.Some? && s.records[q].lifecycle.value.drains != []
  {
    var l := s.records[q].lifecycle.value;
    D.AllSettled(l) || S.Covered(s, q, |l.drains| - 1)
  }

  ghost predicate PlaceOk(s: Root, q: nat)
    requires q < |s.records|
  {
    s.records[q].lifecycle.Some? ==>
      var l := s.records[q].lifecycle.value;
      && (s.records[q].point == AwaitPluginMount && l.drains == [] ==> s.pending == Some(q) && s.records[q].attached)
      && (OwnFirst(l) ==> SettledOrCovered(s, q) || Awaited(s, q))
      && (s.pending == Some(q) ==> !DisposedFirst(l))
  }

  // The same for a record that the pending slot does not hold.
  ghost predicate FreeOk(s: Root, q: nat)
    requires q < |s.records|
  {
    s.records[q].lifecycle.Some? ==>
      var l := s.records[q].lifecycle.value;
      && (s.records[q].point == AwaitPluginMount ==> l.drains != [])
      && (OwnFirst(l) ==> SettledOrCovered(s, q))
  }

  ghost predicate RecordOwn(s: Root, q: nat)
    requires q < |s.records|
  {
    ShapeOk(s.records[q]) && PlaceOk(s, q)
  }

  ghost predicate Own(s: Root) {
    forall q :: 0 <= q < |s.records| ==> RecordOwn(s, q)
  }

  // ---- Frames ----------------------------------------------------------------------------------------

  ghost predicate WorksKept(s: Root, t: Root) {
    && |s.barriers| <= |t.barriers|
    && (forall b :: 0 <= b < |s.barriers| ==> t.barriers[b].work == s.barriers[b].work)
  }

  lemma CoveredFrame(s: Root, t: Root, q: nat, d: nat)
    requires WorksKept(s, t) && S.Covered(s, q, d)
    ensures S.Covered(t, q, d)
  {
    var b :| 0 <= b < |s.barriers| && s.barriers[b].work == Some((q, d));
    assert t.barriers[b].work == Some((q, d));
  }

  // The pending slot keeps the record, unless its mount has ended, and does not get it back.
  predicate StillHeld(s: Root, t: Root, q: nat)
    requires q < |s.records|
  {
    && (s.pending == Some(q) ==> t.pending == Some(q) || s.records[q].point == Done)
    && (t.pending == Some(q) ==> s.pending == Some(q))
  }

  lemma PlaceFrame(s: Root, t: Root, q: nat)
    requires q < |s.records| && q < |t.records| && t.records[q] == s.records[q] && WorksKept(s, t)
    ensures FreeOk(s, q) ==> FreeOk(t, q)
    ensures PlaceOk(s, q) && StillHeld(s, t, q) ==> PlaceOk(t, q)
  {
    if s.records[q].lifecycle.Some? {
      var d := |s.records[q].lifecycle.value.drains| - 1;
      if d >= 0 && S.Covered(s, q, d) {
        CoveredFrame(s, t, q, d);
      }
    }
  }

  // Records, barriers and slots stay; so does the invariant.
  lemma OwnFrame(s: Root, t: Root)
    requires Own(s) && t.records == s.records && WorksKept(s, t) && t.pending == s.pending
    ensures Own(t)
  {
    forall q | 0 <= q < |t.records| ensures RecordOwn(t, q) {
      assert RecordOwn(s, q);
      PlaceFrame(s, t, q);
    }
  }

  lemma SetRecordOwn(s: Root, r: nat, record: Record)
    requires Own(s) && r < |s.records|
    requires RecordOwn(SetRecord(s, r, record), r)
    ensures Own(SetRecord(s, r, record))
  {
    var t := SetRecord(s, r, record);
    forall q | 0 <= q < |t.records| ensures RecordOwn(t, q) {
      if q != r {
        assert RecordOwn(s, q);
        PlaceFrame(s, t, q);
      }
    }
  }

  // ---- mount -----------------------------------------------------------------------------------------

  lemma NewRecordOwn(s: Root)
    requires Own(s) && s.pending.None?
    ensures Own(S.NewRecord(s))
  {
    var t := S.NewRecord(s);
    forall q | 0 <= q < |t.records| ensures RecordOwn(t, q) {
      if q < |s.records| {
        assert RecordOwn(s, q);
        PlaceFrame(s, t, q);
      }
    }
  }

  lemma BeginMountOwn(s: Root, r: nat, begin: Begin)
    requires Own(s) && r < |s.records| && s.records[r].lifecycle.None?
    ensures Own(BeginMount(s, r, begin))
  {
    SetRecordOwn(s, r, BeginMount(s, r, begin).records[r]);
  }

  lemma ResumeMountOwn(s: Root, r: nat, begin: Begin)
    requires S.Core(s) && Own(s) && At(s, r, AwaitTeardown)
    ensures Own(BeginMount(s, r, begin))
  {
    assert S.RecordOk(s, r);
    BeginMountOwn(s, r, begin);
  }

  lemma MountOwn(s: Root, begin: Begin)
    requires S.Core(s) && Own(s)
    ensures Own(Mount(s, begin).0)
  {
    if s.installed.None? && s.mountTask.None? {
      NewRecordOwn(s);
      if s.teardown.None? {
        BeginMountOwn(S.NewRecord(s), |s.records|, begin);
      }
    }
  }

  lemma AfterImportOwn(s: Root, r: nat, outcome: ImportOutcome)
    requires S.Core(s) && Own(s) && At(s, r, AwaitImport)
    ensures Own(AfterImport(s, r, outcome))
  {
    assert S.RecordOk(s, r);
    SetRecordOwn(s, r, AfterImport(s, r, outcome).records[r]);
  }

  lemma CleanupShape(l: D.Lifecycle, byDispose: bool)
    requires D.Inv(l) && (l.unmountTaken <==> l.drains != [])
    requires DisposedFirst(l) ==> l.cleanups == [] && AtMostReturn(l)
    ensures var (m, work) := D.CleanupLifecycle(l, byDispose);
      && m.unmountTaken && m.drains != []
      && m.drains[0].byDispose == (if l.drains == [] then byDispose else l.drains[0].byDispose)
      && (l.drains == [] ==> |m.drains| == 1 && work == Some(0))
      && (DisposedFirst(m) ==> m.cleanups == [] && AtMostReturn(m))
      && (D.AllSettled(m) || work == Some(|m.drains| - 1))
      && m.returned == l.returned && (m.returnedTaken ==> l.returnedTaken || l.returned)
  {
    if l.drains == [] {
      assert D.Waiting(l)[0] == D.UnmountHook;
    } else if DisposedFirst(l) {
      assert D.Waiting(l) == if l.returnedTaken || !l.returned then [] else [D.MountReturn];
    }
  }

  // Cleaning up a record whose plugin.mount has come back, with the lifecycle as it is then.
  lemma AwaitOwnCleanupOwn(s: Root, r: nat, l: D.Lifecycle, aborted: bool)
    requires S.Core(s) && Own(s) && r < |s.records|
    requires s.records[r].lifecycle.Some? && s.records[r].point == AwaitPluginMount
    requires D.Inv(l) && l == D.SetReturned(s.records[r].lifecycle.value, l.returned)
    ensures Own(AwaitOwnCleanup(SetLifecycle(s, r, l), r, aborted))
  {
    assert S.RecordOk(s, r) && RecordOwn(s, r);
    CleanupShape(l, false);
    hide S.Core, Own, D.Inv;
    var t := AwaitOwnCleanup(SetLifecycle(s, r, l), r, aborted);
    assert t == SetRecord(s, r, t.records[r]);
    SetRecordOwn(s, r, t.records[r]);
  }

  lemma AfterPluginMountOwn(s: Root, r: nat, outcome: MountOutcome)
    requires S.Core(s) && Own(s) && At(s, r, AwaitPluginMount) && s.records[r].lifecycle.Some?
    ensures Own(AfterPluginMount(s, r, outcome))
  {
    assert S.RecordOk(s, r) && RecordOwn(s, r);
    hide S.Core, Own, AwaitOwnCleanup;
    var before := s.records[r].lifecycle.value;
    match outcome
    case MountThrew =>
      AwaitOwnCleanupOwn(s, r, before, s.generation == s.records[r].generation);
      assert SetLifecycle(s, r, before) == s;
    case MountReturned(isFunction, connected) =>
      var l := D.SetReturned(before, isFunction);
      D.SetReturnedInv(before, isFunction);
      var t := SetLifecycle(s, r, l);
      if !IsCurrent(t, r) || !connected {
        AwaitOwnCleanupOwn(s, r, l, false);
      } else {
        var done := t.records[r].(attached := false, point := Done);
        assert SetRecord(t, r, done) == SetRecord(s, r, done);
        SetRecordOwn(s, r, done);
        OwnFrame(SetRecord(s, r, done), AfterPluginMount(s, r, outcome));
      }
  }

  lemma CleanupAwaitedOwn(s: Root, r: nat)
    requires Own(s) && Enabled(s, CleanupAwaited(r))
    ensures Own(Finish(s, r, false))
  {
    assert RecordOwn(s, r);
    var t := Finish(s, r, false);
    if s.records[r].lifecycle.Some? && OwnFirst(s.records[r].lifecycle.value) && !Awaited(s, r) {
      CoveredOrSettled(s, t, r);
    }
    SetRecordOwn(s, r, t.records[r]);
  }

  lemma CoveredOrSettled(s: Root, t: Root, q: nat)
    requires q < |s.records| && q < |t.records| && WorksKept(s, t)
    requires s.records[q].lifecycle.Some? && t.records[q].lifecycle == s.records[q].lifecycle
    requires s.records[q].lifecycle.value.drains != [] && SettledOrCovered(s, q)
    ensures SettledOrCovered(t, q)
  {
    var d := |s.records[q].lifecycle.value.drains| - 1;
    if S.Covered(s, q, d) {
      CoveredFrame(s, t, q, d);
    }
  }

  lemma TaskHandlerOwn(s: Root, r: nat)
    requires Own(s) && At(s, r, Done)
    ensures Own(TaskHandler(s, r))
  {
    var t := TaskHandler(s, r);
    forall q | 0 <= q < |t.records| ensures RecordOwn(t, q) {
      assert RecordOwn(s, q);
      PlaceFrame(s, t, q);
    }
  }

  // ---- Callbacks -------------------------------------------------------------------------------------

  // Drains run, callbacks are registered; nothing is taken.
  ghost predicate SameDrains(l: D.Lifecycle, m: D.Lifecycle, aborted: bool) {
    && m.unmountTaken == l.unmountTaken && m.returnedTaken == l.returnedTaken && m.returned == l.returned
    && (aborted ==> m.cleanups == l.cleanups)
    && |m.drains| == |l.drains|
    && (forall d :: 0 <= d < |l.drains| ==>
          && m.drains[d].byDispose == l.drains[d].byDispose
          && m.drains[d].callbacks == l.drains[d].callbacks
          && (l.drains[d].Settled() ==> m.drains[d].Settled()))
  }

  lemma SetLifecycleOwn(s: Root, r: nat, m: D.Lifecycle)
    requires Own(s) && r < |s.records| && s.records[r].lifecycle.Some?
    requires SameDrains(s.records[r].lifecycle.value, m, s.records[r].aborted)
    ensures Own(SetLifecycle(s, r, m))
  {
    assert RecordOwn(s, r);
    var l := s.records[r].lifecycle.value;
    var t := SetLifecycle(s, r, m);
    if OwnFirst(l) && S.Covered(s, r, |l.drains| - 1) {
      CoveredFrame(s, t, r, |l.drains| - 1);
    }
    SetRecordOwn(s, r, s.records[r].(lifecycle := Some(m)));
  }

  lemma LifecycleActionOwn(s: Root, a: Action)
    requires Own(s) && Enabled(s, a)
    requires a.DoRegister? || a.StartCallback? || a.SettleCallback? || a.ForgetDrain?
    ensures Own(Apply(s, a))
  {
    SetLifecycleOwn(s, a.record, Apply(s, a).records[a.record].lifecycle.value);
  }

  // ---- dispose ---------------------------------------------------------------------------------------

  lemma TearDownSelf(s: Root, r: nat)
    requires r < |s.records| && s.records[r].lifecycle.Some? && s.records[r].aborted
    requires D.Inv(s.records[r].lifecycle.value) && ShapeOk(s.records[r])
    ensures ShapeOk(TearDown(s, r).records[r])
    ensures TearDown(s, r).records[r].lifecycle.value.drains != []
    ensures SettledOrCovered(TearDown(s, r), r)
  {
    var t := TearDown(s, r);
    CleanupShape(s.records[r].lifecycle.value, true);
    var m := t.records[r].lifecycle.value;
    if !D.AllSettled(m) {
      assert t.barriers[|s.barriers|].work == Some((r, |m.drains| - 1));
    }
  }

  lemma TearDownOthers(s: Root, r: nat, q: nat)
    requires r < |s.records| && s.records[r].lifecycle.Some? && q < |s.records| && q != r
    ensures TearDown(s, r).records[q] == s.records[q] && (FreeOk(s, q) ==> FreeOk(TearDown(s, r), q))
  {
    PlaceFrame(s, TearDown(s, r), q);
  }

  // Every record but `except` needs nothing from the pending slot.
  ghost predicate FreeBut(s: Root, except: Option<nat>) {
    forall q :: 0 <= q < |s.records| ==> ShapeOk(s.records[q]) && (except != Some(q) ==> FreeOk(s, q))
  }

  lemma DetachOwn(s: Root, invalidate: bool)
    requires S.Core(s) && Own(s)
    ensures FreeBut(Detach(s, invalidate), Provisional(s))
  {
    var t := Detach(s, invalidate);
    S.AbortRecordOk(s, s.pending);
    S.AbortRecordOk(AbortRecord(s, s.pending), s.installed);
    forall q | 0 <= q < |t.records| ensures ShapeOk(t.records[q]) && (Provisional(s) != Some(q) ==> FreeOk(t, q)) {
      assert RecordOwn(s, q) && S.RecordOk(s, q);
      if s.records[q].lifecycle.Some? && OwnFirst(s.records[q].lifecycle.value) && SettledOrCovered(s, q) {
        CoveredOrSettled(s, t, q);
      }
    }
  }

  lemma TearDownTargetOwn(s: Root, target: Option<nat>, except: Option<nat>)
    requires S.Detached(s) && FreeBut(s, except)
    requires target.Some? && target.value < |s.records| ==> s.records[target.value].aborted
    ensures FreeBut(TearDownTarget(s, target), except)
    ensures HasLifecycle(s, target) && except == target ==> FreeBut(TearDownTarget(s, target), None)
  {
    if HasLifecycle(s, target) {
      assert S.RecordOk(s, target.value);
      TearDownSelf(s, target.value);
      forall q | 0 <= q < |s.records| && q != target.value
        ensures TearDown(s, target.value).records[q] == s.records[q]
        ensures FreeOk(s, q) ==> FreeOk(TearDown(s, target.value), q)
      {
        TearDownOthers(s, target.value, q);
      }
    }
  }

  lemma DetachAborts(s: Root, invalidate: bool)
    ensures var t := Detach(s, invalidate);
      && |t.records| == |s.records|
      && (forall q :: 0 <= q < |s.records| ==>
            && t.records[q].lifecycle == s.records[q].lifecycle
            && (s.pending == Some(q) || s.installed == Some(q) ==> t.records[q].aborted))
  {
  }

  lemma TearDownTargetKeeps(s: Root, target: Option<nat>)
    ensures var t := TearDownTarget(s, target);
      && |t.records| == |s.records|
      && (forall q :: 0 <= q < |s.records| ==>
            t.records[q].aborted == s.records[q].aborted && t.records[q].lifecycle.Some? == s.records[q].lifecycle.Some?)
  {
  }

  lemma DisposeOwn(s: Root, invalidate: bool)
    requires S.Core(s) && Own(s)
    ensures Own(Dispose(s, invalidate))
  {
    var detached := Detach(s, invalidate);
    var provisional := Provisional(s);
    S.DetachDetached(s, invalidate);
    DetachOwn(s, invalidate);
    DetachAborts(s, invalidate);
    TearDownTargetOwn(detached, s.installed, provisional);
    S.TearDownTargetOk(detached, s.installed);
    TearDownTargetKeeps(detached, s.installed);
    var first := TearDownTarget(detached, s.installed);
    if provisional.Some? {
      assert S.RecordOk(s, provisional.value);
      TearDownTargetOwn(first, provisional, provisional);
    }
    FreeOwn(Dispose(s, invalidate));
  }

  lemma FreeOwn(s: Root)
    requires FreeBut(s, None) && s.pending.None?
    ensures Own(s)
  {
  }

  // ---- Updates and single steps ----------------------------------------------------------------------

  lemma TryUpdateOwn(s: Root, u: nat, env: UpdateEnv, lifecycle: nat)
    requires S.Core(s) && Own(s) && u < |s.updates|
    ensures Own(TryUpdate(s, u, env, lifecycle))
  {
    if env.hasUpdate || (!s.updates[u].prepared && env.parseFails) {
      OwnFrame(s, TryUpdate(s, u, env, lifecycle));
    } else {
      var disposed := Dispose(s, false);
      S.DisposeCore(s, false);
      DisposeOwn(s, false);
      U.DisposeUpdates(s, false);
      var written := if s.updates[u].prepared then disposed.(history := disposed.history + [WroteRoot(u)]) else disposed;
      S.UpdatesFrame(disposed, written);
      OwnFrame(disposed, written);
      MountOwn(written, env.begin);
      U.MountSame(written, env.begin);
      OwnFrame(Mount(written, env.begin).0, TryUpdate(s, u, env, lifecycle));
    }
  }

  lemma AfterActiveMountOwn(s: Root, u: nat, env: UpdateEnv)
    requires S.Core(s) && Own(s) && u < |s.updates|
    ensures Own(AfterActiveMount(s, u, env)) && Own(AfterOwnMount(s, u, env))
  {
    OwnFrame(s, SetUpdate(s, u, Finished));
    if s.installed.Some? {
      TryUpdateOwn(s, u, env, s.installed.value);
    } else {
      MountOwn(s, env.begin);
      U.MountSame(s, env.begin);
      if s.epoch == s.updates[u].epoch {
        OwnFrame(Mount(s, env.begin).0, AfterActiveMount(s, u, env));
      }
    }
  }

  lemma StartUpdateOwn(s: Root, u: nat, env: UpdateEnv)
    requires S.Core(s) && Own(s) && u < |s.updates|
    ensures Own(StartUpdate(s, u, env))
  {
    if s.mountTask.Some? {
      OwnFrame(s, StartUpdate(s, u, env));
    } else {
      AfterActiveMountOwn(s, u, env);
    }
  }

  lemma CallUpdateOwn(s: Root, prepared: bool, env: UpdateEnv)
    requires S.Core(s) && Own(s)
    ensures Own(CallUpdate(s, prepared, env))
  {
    var u := |s.updates|;
    var enqueued := s.(updates := s.updates + [Update(s.epoch, prepared, s.queue, Queued)],
                       history := s.history + [Enqueued(u)]);
    S.UpdatesFrame(s, enqueued);
    OwnFrame(s, enqueued);
    var started := if s.queue.None? then StartUpdate(enqueued, u, env) else enqueued;
    if s.queue.None? {
      StartUpdateOwn(enqueued, u, env);
    }
    OwnFrame(started, started.(queue := Some(u)));
  }

  lemma StepOwn(s: Root, a: Action)
    requires S.Core(s) && Own(s) && Enabled(s, a)
    ensures Own(Apply(s, a))
  {
    hide S.Core, Own, Mount, Dispose, CallUpdate, BeginMount, AfterImport, AfterPluginMount, StartUpdate, AfterOwnMount;
    match a
    case DoMount(begin) => MountOwn(s, begin);
    case DoUnmount => DisposeOwn(s, true);
    case DoUpdate(prepared, env) => CallUpdateOwn(s, prepared, env);
    case ResumeMount(r, begin) => ResumeMountOwn(s, r, begin);
    case ImportSettles(r, imported) => AfterImportOwn(s, r, imported);
    case PluginMountSettles(r, mounted) => AfterPluginMountOwn(s, r, mounted);
    case CleanupAwaited(r) => CleanupAwaitedOwn(s, r);
    case HandleTask(r) => TaskHandlerOwn(s, r);
    case BeginQueued(u, env) => StartUpdateOwn(s, u, env);
    case ActiveMountAwaited(u, env) => AfterActiveMountOwn(s, u, env);
    case OwnMountAwaited(u, env) => AfterActiveMountOwn(s, u, env);
    case SettleBarrier(_) => OwnFrame(s, Apply(s, a));
    case ForgetBarrier(_) => OwnFrame(s, Apply(s, a));
    case PluginUpdateSettles(_, _) => OwnFrame(s, Apply(s, a));
    case RemountAwaited(_) => OwnFrame(s, Apply(s, a));
    case ForgetUpdate(_) => OwnFrame(s, Apply(s, a));
    case _ => LifecycleActionOwn(s, a);
  }

  // ---- Records whose plugin.mount no unmount interrupts ----------------------------------------------

  // An unmount that finds plugin.mount of the record unfinished.
  predicate Interrupts(s: Root, a: Action, q: nat) {
    a.DoUnmount? && s.pending == Some(q) && At(s, q, AwaitPluginMount)
  }

  // What a dispose took first, it took in full.
  ghost predicate WholeOk(record: Record) {
    record.lifecycle.Some? && DisposedFirst(record.lifecycle.value) ==>
      var l := record.lifecycle.value;
      |l.drains| == 1 && (l.returned ==> l.returnedTaken) && record.point != AwaitPluginMount
  }

  // The same for a record that may not have been made yet.
  ghost predicate WholeAt(s: Root, q: nat) {
    q < |s.records| ==> WholeOk(s.records[q])
  }

  lemma MountWhole(s: Root, begin: Begin, q: nat)
    requires WholeAt(s, q)
    ensures WholeAt(Mount(s, begin).0, q)
  {
  }

  // The first drain of a record that cleans itself up stays its own.
  lemma OwnCleanupWhole(s: Root, r: nat, l: D.Lifecycle, aborted: bool, q: nat)
    requires S.Core(s) && Own(s) && WholeAt(s, q) && At(s, r, AwaitPluginMount) && s.records[r].lifecycle.Some?
    requires D.Inv(l) && l == D.SetReturned(s.records[r].lifecycle.value, l.returned)
    ensures WholeAt(AwaitOwnCleanup(SetLifecycle(s, r, l), r, aborted), q)
  {
    assert RecordOwn(s, r);
    CleanupShape(l, false);
    hide S.Core, Own, D.Inv, D.CleanupLifecycle;
  }

  lemma AfterPluginMountWhole(s: Root, r: nat, outcome: MountOutcome, q: nat)
    requires S.Core(s) && Own(s) && WholeAt(s, q) && At(s, r, AwaitPluginMount) && s.records[r].lifecycle.Some?
    ensures WholeAt(AfterPluginMount(s, r, outcome), q)
  {
    assert S.RecordOk(s, r) && RecordOwn(s, r);
    hide S.Core, Own, AwaitOwnCleanup, D.Inv, S.RecordOk;
    var before := s.records[r].lifecycle.value;
    match outcome
    case MountThrew =>
      OwnCleanupWhole(s, r, before, s.generation == s.records[r].generation, q);
      assert SetLifecycle(s, r, before) == s;
    case MountReturned(isFunction, _) =>
      D.SetReturnedInv(before, isFunction);
      OwnCleanupWhole(s, r, D.SetReturned(before, isFunction), false, q);
  }

  lemma TearDownWhole(s: Root, target: Option<nat>, q: nat)
    requires S.Detached(s) && WholeAt(s, q)
    requires HasLifecycle(s, target) && target == Some(q) ==> ShapeOk(s.records[q]) && s.records[q].point != AwaitPluginMount
    ensures WholeAt(TearDownTarget(s, target), q)
  {
    if HasLifecycle(s, target) && target == Some(q) {
      assert S.RecordOk(s, q);
      CleanupShape(s.records[q].lifecycle.value, true);
    }
  }

  lemma DetachPoints(s: Root, invalidate: bool)
    ensures |Detach(s, invalidate).records| == |s.records|
    ensures forall q :: 0 <= q < |s.records| ==> Detach(s, invalidate).records[q].point == s.records[q].point
  {
  }

  lemma TearDownTargetPoints(s: Root, target: Option<nat>)
    ensures |TearDownTarget(s, target).records| == |s.records|
    ensures forall q :: 0 <= q < |s.records| ==> TearDownTarget(s, target).records[q].point == s.records[q].point
  {
  }

  lemma DisposeWhole(s: Root, invalidate: bool, q: nat)
    requires S.Core(s) && Own(s) && WholeAt(s, q)
    requires s.pending == Some(q) ==> !At(s, q, AwaitPluginMount)
    ensures WholeAt(Dispose(s, invalidate), q)
  {
    var detached := Detach(s, invalidate);
    S.DetachDetached(s, invalidate);
    DetachOwn(s, invalidate);
    DetachAborts(s, invalidate);
    DetachPoints(s, invalidate);
    TearDownWhole(detached, s.installed, q);
    S.TearDownTargetOk(detached, s.installed);
    TearDownTargetOwn(detached, s.installed, Provisional(s));
    TearDownTargetPoints(detached, s.installed);
    TearDownWhole(TearDownTarget(detached, s.installed), Provisional(s), q);
  }

  // A record that is installed leaves no mount pending.
  lemma InstalledNotPending(s: Root)
    requires S.Core(s) && s.installed.Some? && s.pending.Some?
    ensures s.pending == s.installed && !At(s, s.pending.value, AwaitPluginMount)
  {
  }

  lemma TryUpdateWhole(s: Root, u: nat, env: UpdateEnv, lifecycle: nat, q: nat)
    requires S.Core(s) && Own(s) && WholeAt(s, q) && u < |s.updates| && s.installed.Some?
    ensures WholeAt(TryUpdate(s, u, env, lifecycle), q)
  {
    if !env.hasUpdate && (s.updates[u].prepared || !env.parseFails) {
      var disposed := Dispose(s, false);
      if s.pending.Some? {
        InstalledNotPending(s);
      }
      DisposeWhole(s, false, q);
      U.DisposeUpdates(s, false);
      var written := if s.updates[u].prepared then disposed.(history := disposed.history + [WroteRoot(u)]) else disposed;
      MountWhole(written, env.begin, q);
      U.MountSame(written, env.begin);
    }
  }

  lemma StartUpdateWhole(s: Root, u: nat, env: UpdateEnv, q: nat)
    requires S.Core(s) && Own(s) && WholeAt(s, q) && u < |s.updates|
    ensures WholeAt(StartUpdate(s, u, env), q) && WholeAt(AfterActiveMount(s, u, env), q)
    ensures WholeAt(AfterOwnMount(s, u, env), q)
  {
    MountWhole(s, env.begin, q);
    U.MountSame(s, env.begin);
    if s.installed.Some? {
      TryUpdateWhole(s, u, env, s.installed.value, q);
    }
  }

  lemma CallUpdateWhole(s: Root, prepared: bool, env: UpdateEnv, q: nat)
    requires S.Core(s) && Own(s) && WholeAt(s, q)
    ensures WholeAt(CallUpdate(s, prepared, env), q)
  {
    var u := |s.updates|;
    var enqueued := s.(updates := s.updates + [Update(s.epoch, prepared, s.queue, Queued)],
                       history := s.history + [Enqueued(u)]);
    S.UpdatesFrame(s, enqueued);
    OwnFrame(s, enqueued);
    if s.queue.None? {
      StartUpdateWhole(enqueued, u, env, q);
    }
  }

  lemma LifecycleActionWhole(s: Root, a: Action, q: nat)
    requires WholeAt(s, q) && Enabled(s, a)
    requires a.DoRegister? || a.StartCallback? || a.SettleCallback? || a.ForgetDrain?
    ensures WholeAt(Apply(s, a), q)
  {
    var l := s.records[a.record].lifecycle.value;
    var m := Apply(s, a).records[a.record].lifecycle.value;
    assert SameDrains(l, m, s.records[a.record].aborted);
  }

  lemma MountActionWhole(s: Root, a: Action, q: nat)
    requires S.Core(s) && WholeAt(s, q) && Enabled(s, a)
    requires a.ResumeMount? || a.ImportSettles? || a.CleanupAwaited?
    ensures WholeAt(Apply(s, a), q)
  {
    assert S.RecordOk(s, a.record);
  }

  lemma StepWhole(s: Root, a: Action, q: nat)
    requires S.Core(s) && Own(s) && WholeAt(s, q) && Enabled(s, a) && !Interrupts(s, a, q)
    ensures WholeAt(Apply(s, a), q)
  {
    hide S.Core, Own, Mount, Dispose, CallUpdate, BeginMount, AfterImport, AfterPluginMount, StartUpdate, AfterActiveMount, AfterOwnMount;
    match a
    case DoMount(begin) => MountWhole(s, begin, q);
    case DoUnmount => DisposeWhole(s, true, q);
    case DoUpdate(prepared, env) => CallUpdateWhole(s, prepared, env, q);
    case PluginMountSettles(r, mounted) => AfterPluginMountWhole(s, r, mounted, q);
    case BeginQueued(u, env) => StartUpdateWhole(s, u, env, q);
    case ActiveMountAwaited(u, env) => StartUpdateWhole(s, u, env, q);
    case OwnMountAwaited(u, env) => StartUpdateWhole(s, u, env, q);
    case ResumeMount(_, _) => MountActionWhole(s, a, q);
    case ImportSettles(_, _) => MountActionWhole(s, a, q);
    case CleanupAwaited(_) => MountActionWhole(s, a, q);
    case HandleTask(r) => assert Apply(s, a).records == s.records;
    case SettleBarrier(_) => assert Apply(s, a).records == s.records;
    case ForgetBarrier(_) => assert Apply(s, a).records == s.records;
    case PluginUpdateSettles(_, _) => assert Apply(s, a).records == s.records;
    case RemountAwaited(_) => assert Apply(s, a).records == s.records;
    case ForgetUpdate(_) => assert Apply(s, a).records == s.records;
    case _ => LifecycleActionWhole(s, a, q);
  }

  // ---- At the next mount -----------------------------------------------------------------------------

  // Nothing of a lifecycle that mountInternal cleaned up first is unfinished once every barrier has
  // settled and its task no longer waits.
  lemma OwnSettled(s: Root, q: nat)
    requires S.Core(s) && Own(s) && S.AllBarriersSettled(s)
    requires q < |s.records| && s.records[q].lifecycle.Some? && OwnFirst(s.records[q].lifecycle.value)
    requires !Awaited(s, q)
    ensures D.AllSettled(s.records[q].lifecycle.value)
  {
    assert RecordOwn(s, q) && S.RecordOk(s, q);
    var l := s.records[q].lifecycle.value;
    if !D.AllSettled(l) {
      var b :| 0 <= b < |s.barriers| && s.barriers[b].work == Some((q, |l.drains| - 1));
      assert S.BarrierOk(s, b);
      D.SettledBehind(l.drains, |l.drains| - 1);
    }
  }
}
