// What the blocks of the runtime decide, told by the fields of the root before and after: when a mount gets
// on, when it installs, and when an update calls the plugin, remounts and writes.
module AdapterBlocks {
  import opened Prelude
  import opened AdapterProtocol
  import opened AdapterTheorems
  import opened AdapterOverlap
  import D = Drains
  import S = AdapterSafety
  import U = AdapterUpdates
  import O = AdapterOwnCleanup
  import W = AdapterStranded

  // ---- mount -----------------------------------------------------------------------------------------

  // A mount starts exactly when nothing is installed and no mount is under way; otherwise nothing happens.
  // The new record is the only thing that it adds, and both slots hold it.
  lemma MountStartsIff(s: Root, begin: Begin)
    requires Reachable(s)
    ensures var t := Apply(s, DoMount(begin));
      if s.installed.Some? || s.mountTask.Some? then t == s
      else
        && |t.records| == |s.records| + 1 && t.records[..|s.records|] == s.records
        && t.pending == Some(|s.records|) && t.mountTask == Some(|s.records|)
        && t.installed == None && t.teardown == s.teardown && t.barriers == s.barriers && t.updates == s.updates
        && t.records[|s.records|].generation == t.generation > s.generation
        && t.records[|s.records|].prior == s.teardown
        && t.records[|s.records|].lifecycle.None?
        && (s.teardown.Some? ==> t.records[|s.records|].point == AwaitTeardown && !t.records[|s.records|].aborted)
        && (s.teardown.None? ==> Begun(t.records[|s.records|], begin))
  {
  }

  // How a mount that has its turn goes on: it imports when it may; it ends when the root is disconnected,
  // skipped or misconfigured, and only in the last two cases the controller is aborted.
  predicate Begun(record: Record, begin: Begin) {
    && record.point == (if begin == Importing then AwaitImport else Done)
    && record.aborted == (begin == Skipped || begin == Misconfigured)
  }

  // After the barrier a record that is no longer current ends at once, whatever its root says.
  lemma MountBeginsIff(s: Root, r: nat, begin: Begin)
    requires Reachable(s) && Enabled(s, ResumeMount(r, begin))
    ensures var t := Apply(s, ResumeMount(r, begin));
      && t.records[r] == s.records[r].(point := t.records[r].point, aborted := t.records[r].aborted)
      && (if IsCurrent(s, r) then Begun(t.records[r], begin)
          else t.records[r].point == Done && t.records[r].aborted == s.records[r].aborted)
      && t == s.(records := t.records)
  {
  }

  // The lifecycle is made, and plugin.mount called, exactly when the import succeeded and the record is still
  // current and connected; a failed import aborts the controller only of the current generation.
  lemma PluginMountCalledIff(s: Root, r: nat, outcome: ImportOutcome)
    requires Reachable(s) && At(s, r, AwaitImport)
    ensures var t := Apply(s, ImportSettles(r, outcome));
      && (if outcome.Imported? && outcome.connected && IsCurrent(s, r)
          then t.records[r].point == AwaitPluginMount && t.records[r].attached
               && t.records[r].lifecycle == Some(D.FRESH_LIFECYCLE) && !t.records[r].aborted
          else t.records[r].point == Done && t.records[r].lifecycle == None)
      && t.records[r].aborted ==
           (s.records[r].aborted || (outcome.ImportFailed? && s.generation == s.records[r].generation))
      && t == s.(records := t.records)
  {
    ReachableInv(s);
    assert S.RecordOk(s, r);
  }

  // A mount installs exactly when plugin.mount returned and the record is still current and connected.  Then
  // its cleanups wait for a later dispose; otherwise all that waits is taken at once.
  lemma InstallsIff(s: Root, r: nat, outcome: MountOutcome)
    requires Reachable(s) && At(s, r, AwaitPluginMount)
    ensures s.records[r].lifecycle.Some? && Enabled(s, PluginMountSettles(r, outcome))
    ensures var t := Apply(s, PluginMountSettles(r, outcome));
      && t.records[r].lifecycle.Some?
      && (t.installed == Some(r) <==> outcome.MountReturned? && outcome.connected && IsCurrent(s, r))
      && (t.installed == Some(r) ==> Installs(s.records[r], t.records[r], outcome))
      && (t.installed != Some(r) ==> CleansUp(s, r, t.records[r], outcome) && t.installed == s.installed)
  {
    ReachableInv(s);
    assert S.RecordOk(s, r);
    W.CleanupEmpties(s.records[r].lifecycle.value, false);
    if outcome.MountReturned? {
      W.CleanupEmpties(D.SetReturned(s.records[r].lifecycle.value, outcome.isFunction), false);
    }
  }

  // The record after it has been installed.
  predicate Installs(before: Record, after: Record, outcome: MountOutcome) {
    && outcome.MountReturned? && before.lifecycle.Some? && after.lifecycle.Some?
    && after.point == Done && !after.attached && !after.aborted
    && var l, m := before.lifecycle.value, after.lifecycle.value;
       && m.drains == l.drains && m.cleanups == l.cleanups && m.late == l.late && m.registrations == l.registrations
       && m.unmountTaken == l.unmountTaken && m.returnedTaken == l.returnedTaken
       && m.returned == outcome.isFunction
  }

  // The record after a mount that threw, or is superseded, aborted or disconnected.
  predicate CleansUp(s: Root, r: nat, after: Record, outcome: MountOutcome) {
    && r < |s.records| && after.lifecycle.Some?
    && after.point.AwaitCleanup? && after.attached == s.records[r].attached
    && after.aborted == (s.records[r].aborted || (outcome.MountThrew? && s.generation == s.records[r].generation))
    && after.lifecycle.value.cleanups == [] && after.lifecycle.value.unmountTaken
    && (outcome.MountReturned? && outcome.isFunction ==> after.lifecycle.value.returnedTaken)
  }

  // What a plugin that mounted undisturbed leaves: its lifecycle is installed, nothing has been cleaned up.
  predicate Mounted(s: Root, r: nat) {
    && s.installed == Some(r) && r < |s.records| && s.records[r].point == Done
    && s.records[r].lifecycle.Some? && s.records[r].lifecycle.value.drains == []
  }

  lemma FreeRoot(s: Root) returns (t: Root)
    requires Reachable(s) && s.pending.None? && s.mountTask.None? && s.installed.None?
    ensures Leads(s, t) && Reachable(t)
    ensures t.pending.None? && t.mountTask.None? && t.installed.None? && t.teardown.None? && |t.records| == |s.records|
  {
    var u := SettleBarriers(s, |s.barriers|);
    if u.teardown.None? {
      t := u;
    } else {
      ReachableInv(u);
      hide Inv;
      t := Step(u, ForgetBarrier(u.teardown.value));
      LeadsByOne(u, ForgetBarrier(u.teardown.value));
      LeadsOn(s, u, t);
    }
  }

  // A free root whose plugin.mount is pending.
  lemma FreeRootCallsPlugin(s: Root) returns (t: Root)
    requires Reachable(s) && s.pending.None? && s.mountTask.None? && s.installed.None? && s.teardown.None?
    ensures Leads(s, t) && Reachable(t) && At(t, |s.records|, AwaitPluginMount)
    ensures IsCurrent(t, |s.records|) && t.records[|s.records|].lifecycle == Some(D.FRESH_LIFECYCLE)
    ensures t.mountTask == Some(|s.records|)
  {
    var r := |s.records|;
    var s1 := Step(s, DoMount(Importing));
    LeadsByOne(s, DoMount(Importing));
    t := Step(s1, ImportSettles(r, Imported(true)));
    LeadsByOne(s1, ImportSettles(r, Imported(true)));
    LeadsOn(s, s1, t);
    hide Leads, Reachable;
  }

  lemma FreeRootInstalls(s: Root) returns (t: Root)
    requires Reachable(s) && s.pending.None? && s.mountTask.None? && s.installed.None? && s.teardown.None?
    ensures Leads(s, t) && Reachable(t) && Mounted(t, |s.records|) && t.mountTask == Some(|s.records|)
  {
    var r := |s.records|;
    var s1 := FreeRootCallsPlugin(s);
    var a := PluginMountSettles(r, MountReturned(true, true));
    InstallsIff(s1, r, a.mounted);
    t := Step(s1, a);
    LeadsByOne(s1, a);
    LeadsOn(s, s1, t);
    hide Leads, Reachable, IsCurrent;
  }

  // From every reachable state some continuation installs a lifecycle: unmount, let the teardown end, mount.
  lemma CanAlwaysInstall(s: Root) returns (t: Root, r: nat)
    requires Reachable(s)
    ensures Leads(s, t) && Reachable(t) && Mounted(t, r)
  {
    ReachableInv(s);
    S.DisposeDetached(s, true);
    hide Inv;
    var s1 := Step(s, DoUnmount);
    LeadsByOne(s, DoUnmount);
    var s2 := FreeRoot(s1);
    t := FreeRootInstalls(s2);
    r := |s2.records|;
    LeadsOn(s, s1, s2);
    LeadsOn(s, s2, t);
  }

  // The first mount of a root installs its first record.
  lemma FirstMountInstalls() returns (s: Root)
    ensures Reachable(s) && Mounted(s, 0)
  {
    assert Run(INITIAL_ROOT, [], INITIAL_ROOT);
    s := FreeRootInstalls(INITIAL_ROOT);
  }

  // ---- unmount ---------------------------------------------------------------------------------------

  // The lifecycle an unmount tears down: the installed one, or else the one a pending mount has created.
  function Target(s: Root): Option<nat> {
    if s.installed.Some? then s.installed
    else if s.pending.Some? && s.pending.value < |s.records| && s.records[s.pending.value].attached then s.pending
    else None
  }

  // Every slot is emptied, both counters advance, and nothing changes in the updates.
  predicate Emptied(s: Root, t: Root) {
    && t.generation == s.generation + 1 && t.epoch == s.epoch + 1
    && t.pending == None && t.mountTask == None && t.installed == None && t.queue == None
    && t.updates == s.updates && t.history == s.history + [Unmounted]
  }

  // The controllers of the pending and of the installed record are aborted, and no other one; lifecycles other
  // than the target's keep what they have.
  predicate Aborts(s: Root, t: Root) {
    && |t.records| == |s.records|
    && forall r :: 0 <= r < |s.records| ==>
         && t.records[r] == s.records[r].(aborted := t.records[r].aborted, lifecycle := t.records[r].lifecycle)
         && t.records[r].aborted == (s.records[r].aborted || s.pending == Some(r) || s.installed == Some(r))
         && (Target(s) != Some(r) ==> t.records[r].lifecycle == s.records[r].lifecycle)
  }

  // The target is left with nothing to take, and a new barrier waits for the last one and for its drains.
  ghost predicate TornDown(s: Root, t: Root, r: nat) {
    && r < |s.records| == |t.records| && s.records[r].lifecycle.Some? && t.records[r].lifecycle.Some?
    && var l, m := s.records[r].lifecycle.value, t.records[r].lifecycle.value;
       && m.cleanups == [] && m.unmountTaken && m.returnedTaken == (l.returnedTaken || l.returned)
       && l.drains <= m.drains && m.registrations == l.registrations && m.order == l.order && m.late == l.late
       && t.teardown == Some(|s.barriers|)
       && t.barriers == s.barriers + [Barrier(s.teardown, if m.barrier.None? then None else Some((r, m.barrier.value)), false)]
  }

  lemma CleanupTakes(l: D.Lifecycle, byDispose: bool)
    requires D.Inv(l)
    ensures var (m, work) := D.CleanupLifecycle(l, byDispose);
      && m.cleanups == [] && m.unmountTaken && m.returnedTaken == (l.returnedTaken || l.returned)
      && l.drains <= m.drains && m.registrations == l.registrations && m.order == l.order && m.late == l.late
      && m.barrier == work
  {
    W.CleanupEmpties(l, byDispose);
  }

  // All that an unmount does.
  lemma UnmountDoes(s: Root)
    requires Reachable(s)
    ensures var t := Apply(s, DoUnmount);
      && Emptied(s, t) && Aborts(s, t)
      && (Target(s).Some? ==> TornDown(s, t, Target(s).value))
      && (Target(s).None? ==> t.barriers == s.barriers && t.teardown == s.teardown)
  {
    ReachableInv(s);
    OneTarget(s);
    DetachEmpties(s);
    hide Inv, Reachable, Detach, Dispose, TearDown, TornDown, Emptied, Aborts, Target;
    if Target(s).Some? {
      TargetTornDown(s, Detach(s, true), Target(s).value);
    }
  }

  lemma TargetTornDown(s: Root, d: Root, r: nat)
    requires r < |s.records| && Target(s) == Some(r) && s.records[r].lifecycle.Some? && D.Inv(s.records[r].lifecycle.value)
    requires Emptied(s, d) && Aborts(s, d) && |d.records| == |s.records| && d.records[r].lifecycle == s.records[r].lifecycle
    requires d.barriers == s.barriers && d.teardown == s.teardown
    ensures var t := TearDown(d, r);
      Emptied(s, t) && Aborts(s, t) && TornDown(s, t, r)
  {
    CleanupTakes(s.records[r].lifecycle.value, true);
    hide D.Inv, D.CleanupLifecycle, Target;
  }

  lemma DetachEmpties(s: Root)
    requires s.installed.Some? && s.pending.Some? ==> s.pending == s.installed
    ensures var t := Detach(s, true);
      && Emptied(s, t) && Aborts(s, t) && t.barriers == s.barriers && t.teardown == s.teardown
      && |t.records| == |s.records| && forall r :: 0 <= r < |s.records| ==> t.records[r].lifecycle == s.records[r].lifecycle
  {
    hide Target;
  }

  lemma OneTarget(s: Root)
    requires Inv(s)
    ensures s.installed.Some? && s.pending.Some? ==> s.pending == s.installed
    ensures Dispose(s, true) == TearDownTarget(Detach(s, true), Target(s))
    ensures Target(s).Some? ==>
      && Target(s).value < |s.records| && s.records[Target(s).value].lifecycle.Some?
      && D.Inv(s.records[Target(s).value].lifecycle.value)
  {
    if s.installed.Some? && s.pending.Some? {
      O.InstalledNotPending(s);
    }
    if Target(s).Some? {
      assert S.RecordOk(s, Target(s).value);
    }
    hide Detach, TearDown;
  }

  // ---- registration ----------------------------------------------------------------------------------

  // What a cleanup would take grows by the new callback, before the others that were registered, exactly when
  // the controller is not aborted; otherwise the callback runs at once, and nothing more waits.
  lemma RegistrationWaitsIff(s: Root, r: nat)
    requires Reachable(s) && Enabled(s, DoRegister(r))
    ensures var t, l := Apply(s, DoRegister(r)), s.records[r].lifecycle.value;
      && t.records[r].lifecycle.Some?
      && var m, callback := t.records[r].lifecycle.value, D.Registered(l.registrations);
         && (!s.records[r].aborted ==>
               m.late == l.late && D.Waiting(m)[|D.Waiting(m)| - |l.cleanups| - 1..] == [callback] + Reverse(l.cleanups))
         && (s.records[r].aborted ==> m.late == l.late + [callback] && D.Waiting(m) == D.Waiting(l))
  {
    var l := s.records[r].lifecycle.value;
    var m := Apply(s, DoRegister(r)).records[r].lifecycle.value;
    hide Reachable;
    if !s.records[r].aborted {
      assert Reverse(m.cleanups) == [D.Registered(l.registrations)] + Reverse(l.cleanups);
    }
  }

  // ---- promise handlers ------------------------------------------------------------------------------

  // Once the handler of the latest mount task has run, and nothing was installed, the next mount starts; the
  // handler of any other task changes nothing.
  lemma TaskHandlerFreesMount(s: Root, r: nat, begin: Begin)
    requires Reachable(s) && Enabled(s, HandleTask(r))
    ensures var t := Apply(s, HandleTask(r));
      && (s.mountTask != Some(r) ==> t == s)
      && (s.mountTask == Some(r) && s.installed.None? ==>
            |Apply(t, DoMount(begin)).records| == |s.records| + 1 && t.records == s.records)
  {
    ReachableInv(s);
    hide U.Inv, O.Own, W.Wait, Reachable;
  }

  // Once the handler of the latest barrier has run, a mount that starts does not wait for a teardown; the
  // handler of any other barrier changes nothing.
  lemma BarrierHandlerFreesMount(s: Root, b: nat, begin: Begin)
    requires Reachable(s) && Enabled(s, ForgetBarrier(b))
    ensures var t := Apply(s, ForgetBarrier(b));
      && (s.teardown != Some(b) ==> t == s)
      && (s.teardown == Some(b) && s.installed.None? && s.mountTask.None? ==>
            var u := Apply(t, DoMount(begin));
            |u.records| == |s.records| + 1 && Begun(u.records[|s.records|], begin))
  {
  }

  // Once the handler of the latest update has run, the next one does not queue; the handler of any other
  // update changes nothing.
  lemma UpdateHandlerFreesQueue(s: Root, u: nat, prepared: bool, env: UpdateEnv)
    requires Reachable(s) && Enabled(s, ForgetUpdate(u))
    ensures var t := Apply(s, ForgetUpdate(u));
      && (s.queue != Some(u) ==> t == s)
      && (s.queue == Some(u) ==>
            var v := Apply(t, DoUpdate(prepared, env));
            |v.updates| == |s.updates| + 1 && v.updates[|s.updates|].point != Queued)
  {
    if s.queue == Some(u) {
      var t := Step(s, ForgetUpdate(u));
      DecidedPoint(t, prepared, env);
      hide Reachable, StartUpdate;
    }
  }

  // Once the handler of the latest drain of a lifecycle has run, a cleanup that takes anything can start its
  // callbacks at once; the handler of any other drain changes nothing.
  lemma DrainHandlerFreesLifecycle(s: Root, r: nat, d: nat, byDispose: bool)
    requires Reachable(s) && Enabled(s, ForgetDrain(r, d))
    ensures var t, l := Apply(s, ForgetDrain(r, d)), s.records[r].lifecycle.value;
      && (l.barrier != Some(d) ==> t == s)
      && (l.barrier == Some(d) ==>
            && t.records[r].lifecycle.Some? && t.records[r].lifecycle.value.drains == l.drains
            && var m := D.CleanupLifecycle(t.records[r].lifecycle.value, byDispose).0;
               |m.drains| > |l.drains| ==> D.CanStart(m, |l.drains|))
  {
  }

  lemma DecidedPoint(s: Root, prepared: bool, env: UpdateEnv)
    requires Reachable(s) && s.queue.None?
    ensures var v := Apply(s, DoUpdate(prepared, env));
      |v.updates| == |s.updates| + 1 && v.updates[|s.updates|].point != Queued
  {
    CallDecides(s, prepared, env);
    var enqueued := s.(updates := s.updates + [Update(s.epoch, prepared, s.queue, Queued)],
                       history := s.history + [Enqueued(|s.updates|)]);
    if s.mountTask.None? && s.installed.Some? && !prepared && env.parseFails {
      assert StartUpdate(enqueued, |s.updates|, env).updates[|s.updates|].point == Finished;
    }
  }

  // ---- update ----------------------------------------------------------------------------------------

  // Only the point of update u changes.
  predicate OnlyPoint(s: Root, t: Root, u: nat, point: UpdatePoint) {
    u < |s.updates| && t == s.(updates := s.updates[u := s.updates[u].(point := point)])
  }

  // What an update does with the lifecycle it finds installed: without props of its own it ends when the
  // root's cannot be parsed; it calls plugin.update when there is one; otherwise it disposes and mounts again,
  // and writes the props it was given to the root in between.
  ghost predicate Tried(s: Root, t: Root, u: nat, env: UpdateEnv) {
    && s.installed.Some? && u < |s.updates|
    && var prepared := s.updates[u].prepared;
       if !prepared && env.parseFails then OnlyPoint(s, t, u, Finished)
       else if env.hasUpdate then OnlyPoint(s, t, u, AwaitPluginUpdate(s.installed.value))
       else Remounted(s, t, u, prepared)
  }

  ghost predicate Remounted(s: Root, t: Root, u: nat, prepared: bool) {
    && s.installed.Some? && s.installed.value < |s.records| < |t.records|
    && |t.records| == |s.records| + 1
    && t.records[s.installed.value].aborted
    && t.installed == None && t.pending == t.mountTask == Some(|s.records|)
    && t.epoch == s.epoch && t.queue == s.queue
    && t.history == s.history + (if prepared then [WroteRoot(u)] else [])
    && u < |s.updates| && t.updates == s.updates[u := s.updates[u].(point := AwaitRemount(Some(|s.records|)))]
  }

  lemma TriedSo(s: Root, u: nat, env: UpdateEnv)
    requires Reachable(s) && u < |s.updates| && s.installed.Some?
    ensures Tried(s, TryUpdate(s, u, env, s.installed.value), u, env)
  {
    ReachableInv(s);
    if !env.hasUpdate && (s.updates[u].prepared || !env.parseFails) {
      var disposed := Dispose(s, false);
      S.DisposeDetached(s, false);
      U.DisposeUpdates(s, false);
      DisposeRecords(s, false);
      hide Inv, Dispose, Reachable;
      var written := if s.updates[u].prepared then disposed.(history := disposed.history + [WroteRoot(u)]) else disposed;
      U.MountSame(written, env.begin);
      MountKeepsRecords(written, env.begin);
    }
  }

  lemma DisposeRecords(s: Root, invalidate: bool)
    ensures var t := Dispose(s, invalidate);
      && |t.records| == |s.records|
      && (s.installed.Some? && s.installed.value < |s.records| ==> t.records[s.installed.value].aborted)
  {
    O.DetachAborts(s, invalidate);
    O.TearDownTargetKeeps(Detach(s, invalidate), s.installed);
    O.TearDownTargetKeeps(TearDownTarget(Detach(s, invalidate), s.installed), Provisional(s));
  }

  lemma MountKeepsRecords(s: Root, begin: Begin)
    requires s.installed.None? && s.mountTask.None?
    ensures var (t, task) := Mount(s, begin);
      && |t.records| == |s.records| + 1 && t.records[..|s.records|] == s.records
      && task == t.pending == t.mountTask == Some(|s.records|) && t.installed == None
  {
  }

  // What an update does when it is its turn: it waits for a mount under way; it ends when an unmount came
  // since it was enqueued; it starts a mount when nothing is installed, once; and else it tries the lifecycle.
  ghost predicate Decided(s: Root, t: Root, u: nat, env: UpdateEnv, waits: bool, mounts: bool) {
    && u < |s.updates|
    && if waits && s.mountTask.Some? then OnlyPoint(s, t, u, AwaitActiveMount(s.mountTask.value))
       else if s.epoch != s.updates[u].epoch then OnlyPoint(s, t, u, Finished)
       else if s.installed.Some? then Tried(s, t, u, env)
       else if !mounts then OnlyPoint(s, t, u, Finished)
       else MountedFor(s, t, u)
  }

  ghost predicate MountedFor(s: Root, t: Root, u: nat) {
    && u < |s.updates| == |t.updates|
    && t.history == s.history && t.epoch == s.epoch && t.queue == s.queue && t.installed == None
    && t.updates == s.updates[u := s.updates[u].(point := t.updates[u].point)]
    && (if s.mountTask.Some? then t.updates[u].point == AwaitOwnMount(None) && t.records == s.records
        else t.updates[u].point == AwaitOwnMount(Some(|s.records|)) && |t.records| == |s.records| + 1
             && t.mountTask == Some(|s.records|))
  }

  lemma DecidedSo(s: Root, u: nat, env: UpdateEnv)
    requires Reachable(s) && u < |s.updates|
    ensures Decided(s, StartUpdate(s, u, env), u, env, true, true)
    ensures Decided(s, AfterActiveMount(s, u, env), u, env, false, true)
    ensures Decided(s, AfterOwnMount(s, u, env), u, env, false, false)
  {
    if s.installed.Some? {
      TriedSo(s, u, env);
    } else {
      U.MountSame(s, env.begin);
    }
    hide Reachable, Tried, TryUpdate;
  }

  // The three places where an update goes on before it calls the plugin.
  lemma UpdateDecides(s: Root, a: Action)
    requires Reachable(s) && Enabled(s, a)
    ensures a.BeginQueued? ==> Decided(s, Apply(s, a), a.update, a.env, true, true)
    ensures a.ActiveMountAwaited? ==> Decided(s, Apply(s, a), a.update, a.env, false, true)
    ensures a.OwnMountAwaited? ==> Decided(s, Apply(s, a), a.update, a.env, false, false)
  {
    hide Decided, Reachable, StartUpdate, AfterActiveMount, AfterOwnMount;
    if a.BeginQueued? || a.ActiveMountAwaited? || a.OwnMountAwaited? {
      DecidedSo(s, a.update, a.env);
    }
  }

  // After plugin.update the props are written, to the lifecycle and, if they were given, to the root, exactly
  // when that lifecycle is still installed, no unmount came since the update was enqueued, and it did not
  // throw.  Nothing else changes, but that the update has finished.
  lemma UpdateWritesIff(s: Root, u: nat, threw: bool)
    requires Reachable(s) && u < |s.updates| && s.updates[u].point.AwaitPluginUpdate?
    ensures Enabled(s, PluginUpdateSettles(u, threw))
    ensures var t := Apply(s, PluginUpdateSettles(u, threw));
      var writes := s.installed == Some(s.updates[u].point.lifecycle) && s.epoch == s.updates[u].epoch && !threw;
      && s.history <= t.history
      && t == s.(updates := s.updates[u := s.updates[u].(point := Finished)], history := t.history)
      && (WroteLifecycle(u) in t.history[|s.history|..] <==> writes)
      && (WroteRoot(u) in t.history[|s.history|..] <==> writes && s.updates[u].prepared)
      && (forall e :: e in t.history[|s.history|..] ==> e == WroteLifecycle(u) || e == WroteRoot(u))
      && |t.history| == |s.history| + (if writes then 1 else 0) + (if writes && s.updates[u].prepared then 1 else 0)
  {
    ReachableInv(s);
    hide U.Inv, O.Own, W.Wait, Reachable;
    var t := Apply(s, PluginUpdateSettles(u, threw));
    var added := t.history[|s.history|..];
    var lifecycle := s.updates[u].point.lifecycle;
    if s.installed == Some(lifecycle) && s.epoch == s.updates[u].epoch && !threw {
      assert added == [WroteLifecycle(u)] + (if s.updates[u].prepared then [WroteRoot(u)] else []);
      assert added[0] == WroteLifecycle(u);
      assert s.updates[u].prepared ==> added[1] == WroteRoot(u);
    } else {
      assert added == [];
    }
  }

  // The state in which an update waits for the plugin.
  function Called(s: Root, prepared: bool): Root
    requires s.installed.Some?
  {
    s.(updates := s.updates + [Update(s.epoch, prepared, None, AwaitPluginUpdate(s.installed.value))],
       queue := Some(|s.updates|),
       history := s.history + [Enqueued(|s.updates|)])
  }

  lemma UpdateCallsPlugin(s: Root, prepared: bool)
    requires Reachable(s) && s.installed.Some? && s.mountTask.None? && s.queue.None?
    ensures Leads(s, Called(s, prepared)) && Reachable(Called(s, prepared))
  {
    var env := UpdateEnv(false, true, Importing);
    var u := |s.updates|;
    var t := Step(s, DoUpdate(prepared, env));
    LeadsByOne(s, DoUpdate(prepared, env));
    hide Reachable, Leads;
    assert t.updates == (s.updates + [Update(s.epoch, prepared, None, Queued)])[u := Called(s, prepared).updates[u]];
    assert t.updates == Called(s, prepared).updates;
  }

  // An update that finds a lifecycle with plugin.update installed, and is not disturbed, writes the props.
  lemma UpdateGoesThrough(s: Root, prepared: bool) returns (t: Root)
    requires Reachable(s) && s.installed.Some? && s.mountTask.None? && s.queue.None?
    ensures Leads(s, t) && Reachable(t) && t.installed == s.installed
    ensures var u := |s.updates|;
      t.history == s.history + [Enqueued(u), WroteLifecycle(u)] + (if prepared then [WroteRoot(u)] else [])
  {
    var u, s1 := |s.updates|, Called(s, prepared);
    var a := PluginUpdateSettles(u, false);
    UpdateCallsPlugin(s, prepared);
    t := Step(s1, a);
    LeadsByOne(s1, a);
    LeadsOn(s, s1, t);
    InstalledNotAborted(s);
    hide Reachable, Leads;
    assert t.history == s1.history + [WroteLifecycle(u)] + (if prepared then [WroteRoot(u)] else []);
    assert s1.history + [WroteLifecycle(u)] == s.history + [Enqueued(u), WroteLifecycle(u)];
  }

  lemma InstalledNotAborted(s: Root)
    requires Reachable(s) && s.installed.Some?
    ensures s.installed.value < |s.records| && !s.records[s.installed.value].aborted
  {
    ReachableInv(s);
  }

  // A call of update goes behind the latest one, or decides at once; either way it is the latest then.
  lemma CallDecides(s: Root, prepared: bool, env: UpdateEnv)
    requires Reachable(s)
    ensures var t, u := Apply(s, DoUpdate(prepared, env)), |s.updates|;
      && t.queue == Some(u) && u < |t.updates| == u + 1
      && t.updates[u].prepared == prepared && t.updates[u].epoch == s.epoch && t.updates[u].previous == s.queue
      && (s.queue.Some? ==> t.updates[u].point == Queued && t.records == s.records && t.history == s.history + [Enqueued(u)])
      && (s.queue.None? && s.mountTask.Some? ==> t.updates[u].point == AwaitActiveMount(s.mountTask.value))
      && (s.queue.None? && s.mountTask.None? && s.installed.None? ==> t.updates[u].point == AwaitOwnMount(Some(|s.records|)))
      && (s.queue.None? && s.mountTask.None? && s.installed.Some? && (prepared || !env.parseFails) ==>
            t.updates[u].point == if env.hasUpdate then AwaitPluginUpdate(s.installed.value) else AwaitRemount(Some(|s.records|)))
  {
    var enqueued := s.(updates := s.updates + [Update(s.epoch, prepared, s.queue, Queued)],
                       history := s.history + [Enqueued(|s.updates|)]);
    if s.queue.None? && s.mountTask.None? {
      ReachableInv(s);
      S.UpdatesFrame(s, enqueued);
      hide Inv, Reachable;
      EnqueuedDecides(enqueued, |s.updates|, env);
    }
  }

  lemma EnqueuedDecides(s: Root, u: nat, env: UpdateEnv)
    requires S.Core(s) && u < |s.updates| && s.updates[u].epoch == s.epoch && s.mountTask.None?
    ensures var t := StartUpdate(s, u, env);
      && t.updates == s.updates[u := s.updates[u].(point := t.updates[u].point)]
      && (s.installed.None? ==> t.updates[u].point == AwaitOwnMount(Some(|s.records|)))
      && (s.installed.Some? && (s.updates[u].prepared || !env.parseFails) ==>
            t.updates[u].point == if env.hasUpdate then AwaitPluginUpdate(s.installed.value) else AwaitRemount(Some(|s.records|)))
  {
    U.MountSame(s, env.begin);
    if s.installed.Some? {
      S.DisposeDetached(s, false);
      U.DisposeUpdates(s, false);
      DisposeRecords(s, false);
      hide S.Core, Dispose;
      var disposed := Dispose(s, false);
      var written := if s.updates[u].prepared then disposed.(history := disposed.history + [WroteRoot(u)]) else disposed;
      U.MountSame(written, env.begin);
    }
  }
}
