// The update queue of the adapter protocol: order of execution and the epoch that unmount advances.
module AdapterUpdates {
  import opened Prelude
  import opened AdapterProtocol
  import D = Drains

  // ---- Order of updates ------------------------------------------------------------------------------

  ghost predicate EarlierFinished(s: Root, u: nat)
    requires u < |s.updates|
  {
    forall v :: 0 <= v < u && s.updates[v].epoch == s.updates[u].epoch ==> s.updates[v].point == Finished
  }

  ghost predicate UpdateOk(s: Root, u: nat)
    requires u < |s.updates|
  {
    var update := s.updates[u];
    && update.epoch <= s.epoch
    && (match update.previous
        case Some(p) => p + 1 == u && s.updates[p].epoch == update.epoch
        case None => EarlierFinished(s, u))
    && (update.point != Queued ==> EarlierFinished(s, u))
  }

  ghost predicate UpdatesOk(s: Root) {
    && (forall u :: 0 <= u < |s.updates| ==> UpdateOk(s, u))
    && (forall u, v :: 0 <= u < v < |s.updates| ==> s.updates[u].epoch <= s.updates[v].epoch)
  }

  ghost predicate QueueOk(s: Root) {
    match s.queue
    case Some(q) => q + 1 == |s.updates| && s.updates[q].epoch == s.epoch
    case None => forall u :: 0 <= u < |s.updates| && s.updates[u].epoch == s.epoch ==> s.updates[u].point == Finished
  }

  // ---- History ---------------------------------------------------------------------------------------

  function Unmounts(history: seq<Event>): nat {
    if history == [] then 0
    else Unmounts(history[..|history| - 1]) + (if history[|history| - 1].Unmounted? then 1 else 0)
  }

  // Whatever an update does, it does while the epoch in which it was enqueued is current.
  ghost predicate EventOk(s: Root, k: nat)
    requires k < |s.history|
  {
    s.history[k].Unmounted? ||
    (s.history[k].update < |s.updates| && s.updates[s.history[k].update].epoch == Unmounts(s.history[..k]))
  }

  ghost predicate HistoryOk(s: Root) {
    && s.epoch == Unmounts(s.history)
    && (forall k :: 0 <= k < |s.history| ==> EventOk(s, k))
  }

  ghost predicate Inv(s: Root) {
    UpdatesOk(s) && QueueOk(s) && HistoryOk(s)
  }

  ghost predicate SameUpdates(s: Root, t: Root) {
    t.updates == s.updates && t.queue == s.queue && t.epoch == s.epoch && t.history == s.history
  }

  // ---- Steps that leave updates alone ----------------------------------------------------------------

  lemma MountSame(s: Root, begin: Begin)
    ensures SameUpdates(s, Mount(s, begin).0)
  {
  }

  lemma TearDownTargetSame(s: Root, target: Option<nat>)
    ensures SameUpdates(s, TearDownTarget(s, target))
  {
  }

  lemma DisposeUpdates(s: Root, invalidate: bool)
    ensures var t := Dispose(s, invalidate);
      && t.updates == s.updates
      && (if invalidate then t.queue == None && t.epoch == s.epoch + 1 && t.history == s.history + [Unmounted]
          else SameUpdates(s, t))
  {
    TearDownTargetSame(Detach(s, invalidate), s.installed);
    TearDownTargetSame(TearDownTarget(Detach(s, invalidate), s.installed), Provisional(s));
  }

  lemma SameInv(s: Root, t: Root)
    requires SameUpdates(s, t)
    ensures UpdatesOk(s) ==> UpdatesOk(t)
    ensures QueueOk(s) ==> QueueOk(t)
    ensures HistoryOk(s) ==> HistoryOk(t)
  {
    if UpdatesOk(s) {
      forall u | 0 <= u < |t.updates| ensures UpdateOk(t, u) {
        assert UpdateOk(s, u);
      }
    }
    if HistoryOk(s) {
      forall k | 0 <= k < |t.history| ensures EventOk(t, k) {
        assert EventOk(s, k);
      }
    }
  }

  lemma UnmountInv(s: Root)
    requires Inv(s)
    ensures Inv(Dispose(s, true))
  {
    var t := Dispose(s, true);
    DisposeUpdates(s, true);
    forall u | 0 <= u < |t.updates| ensures UpdateOk(t, u) && t.updates[u].epoch < t.epoch {
      assert UpdateOk(s, u);
    }
    assert t.history[..|s.history|] == s.history;
    forall k | 0 <= k < |t.history| ensures EventOk(t, k) {
      if k < |s.history| {
        assert EventOk(s, k);
        assert t.history[..k] == s.history[..k];
      }
    }
  }

  // ---- Steps of updates ------------------------------------------------------------------------------

  // An unfinished update whose predecessors have finished moves on; only its point and the history change.
  ghost predicate UpdateMoves(s: Root, u: nat, t: Root) {
    && u < |s.updates| == |t.updates|
    && t.updates == s.updates[u := s.updates[u].(point := t.updates[u].point)]
    && t.updates[u].point != Queued
    && t.queue == s.queue && t.epoch == s.epoch
    && |s.history| <= |t.history| && t.history[..|s.history|] == s.history
    && (forall k :: |s.history| <= k < |t.history| ==> t.history[k] in {WroteLifecycle(u), WroteRoot(u)})
    && (|s.history| < |t.history| ==> s.epoch == s.updates[u].epoch)
  }

  lemma {:induction false} UnmountsAppend(history: seq<Event>, n: nat)
    requires n <= |history|
    requires forall k :: n <= k < |history| ==> !history[k].Unmounted?
    ensures Unmounts(history) == Unmounts(history[..n])
    decreases |history|
  {
    if n < |history| {
      var front := history[..|history| - 1];
      UnmountsAppend(front, n);
      assert front[..n] == history[..n];
    } else {
      assert history[..n] == history;
    }
  }

  lemma UpdateMovesOk(s: Root, u: nat, t: Root)
    requires UpdatesOk(s) && HistoryOk(s)
    requires UpdateMoves(s, u, t) && s.updates[u].point != Finished && EarlierFinished(s, u)
    ensures UpdatesOk(t) && HistoryOk(t)
    ensures QueueOk(s) ==> QueueOk(t)
  {
    forall v | 0 <= v < |t.updates| ensures UpdateOk(t, v) {
      assert UpdateOk(s, v);
    }
    forall k | 0 <= k < |t.history| ensures EventOk(t, k) {
      if k < |s.history| {
        assert EventOk(s, k);
        assert t.history[k] == s.history[k] && t.history[..k] == s.history[..k];
      } else {
        UnmountsAppend(t.history[..k], |s.history|);
        assert t.history[..k][..|s.history|] == s.history;
      }
    }
    UnmountsAppend(t.history, |s.history|);
  }

  lemma TryUpdateMoves(s: Root, u: nat, env: UpdateEnv, lifecycle: nat)
    requires u < |s.updates| && s.epoch == s.updates[u].epoch
    ensures UpdateMoves(s, u, TryUpdate(s, u, env, lifecycle))
  {
    DisposeUpdates(s, false);
    var disposed := Dispose(s, false);
    var written := if s.updates[u].prepared then disposed.(history := disposed.history + [WroteRoot(u)]) else disposed;
    MountSame(written, env.begin);
  }

  lemma AfterActiveMountMoves(s: Root, u: nat, env: UpdateEnv)
    requires u < |s.updates|
    ensures UpdateMoves(s, u, AfterActiveMount(s, u, env))
  {
    if s.epoch == s.updates[u].epoch {
      if s.installed.Some? {
        TryUpdateMoves(s, u, env, s.installed.value);
      } else {
        MountSame(s, env.begin);
      }
    }
  }

  lemma StartUpdateMoves(s: Root, u: nat, env: UpdateEnv)
    requires u < |s.updates|
    ensures UpdateMoves(s, u, StartUpdate(s, u, env))
  {
    if s.mountTask.None? {
      AfterActiveMountMoves(s, u, env);
    }
  }

  lemma UpdateStepMoves(s: Root, a: Action)
    requires Enabled(s, a)
    requires a.BeginQueued? || a.ActiveMountAwaited? || a.OwnMountAwaited? || a.PluginUpdateSettles? || a.RemountAwaited?
    ensures UpdateMoves(s, a.update, Apply(s, a))
  {
    match a
    case BeginQueued(u, env) => StartUpdateMoves(s, u, env);
    case ActiveMountAwaited(u, env) => AfterActiveMountMoves(s, u, env);
    case OwnMountAwaited(u, env) =>
      if s.epoch == s.updates[u].epoch && s.installed.Some? {
        TryUpdateMoves(s, u, env, s.installed.value);
      }
    case PluginUpdateSettles(u, threw) =>
    case RemountAwaited(u) =>
  }

  lemma MayMove(s: Root, a: Action)
    requires UpdatesOk(s) && Enabled(s, a)
    requires a.BeginQueued? || a.ActiveMountAwaited? || a.OwnMountAwaited? || a.PluginUpdateSettles? || a.RemountAwaited?
    ensures a.update < |s.updates| && s.updates[a.update].point != Finished && EarlierFinished(s, a.update)
  {
    assert UpdateOk(s, a.update);
    if a.BeginQueued? && s.updates[a.update].previous.Some? {
      assert UpdateOk(s, a.update - 1);
    }
  }

  lemma UpdateStepInv(s: Root, a: Action)
    requires Inv(s) && Enabled(s, a)
    requires a.BeginQueued? || a.ActiveMountAwaited? || a.OwnMountAwaited? || a.PluginUpdateSettles? || a.RemountAwaited?
    ensures Inv(Apply(s, a))
  {
    UpdateStepMoves(s, a);
    MayMove(s, a);
    UpdateMovesOk(s, a.update, Apply(s, a));
  }

  lemma EnqueueOk(s: Root, prepared: bool)
    requires Inv(s)
    ensures var t := s.(updates := s.updates + [Update(s.epoch, prepared, s.queue, Queued)],
                        history := s.history + [Enqueued(|s.updates|)]);
      UpdatesOk(t) && HistoryOk(t) && (s.queue.None? ==> EarlierFinished(t, |s.updates|))
  {
    var t := s.(updates := s.updates + [Update(s.epoch, prepared, s.queue, Queued)],
                history := s.history + [Enqueued(|s.updates|)]);
    forall v | 0 <= v < |t.updates| ensures UpdateOk(t, v) && t.updates[v].epoch <= s.epoch {
      if v < |s.updates| {
        assert UpdateOk(s, v);
      }
    }
    forall k | 0 <= k < |t.history| ensures EventOk(t, k) {
      if k < |s.history| {
        assert EventOk(s, k);
        assert t.history[..k] == s.history[..k];
      } else {
        assert t.history[..k] == s.history;
      }
    }
    UnmountsAppend(t.history, |s.history|);
    assert t.history[..|s.history|] == s.history;
  }

  lemma CallUpdateInv(s: Root, prepared: bool, env: UpdateEnv)
    requires Inv(s)
    ensures Inv(CallUpdate(s, prepared, env))
  {
    var u := |s.updates|;
    var enqueued := s.(updates := s.updates + [Update(s.epoch, prepared, s.queue, Queued)],
                       history := s.history + [Enqueued(u)]);
    EnqueueOk(s, prepared);
    var started := if s.queue.None? then StartUpdate(enqueued, u, env) else enqueued;
    if s.queue.None? {
      StartUpdateMoves(enqueued, u, env);
      UpdateMovesOk(enqueued, u, started);
    }
    var t := started.(queue := Some(u));
    forall v | 0 <= v < |t.updates| ensures UpdateOk(t, v) {
      assert UpdateOk(started, v);
    }
    forall k | 0 <= k < |t.history| ensures EventOk(t, k) {
      assert EventOk(started, k);
    }
  }

  lemma ForgetUpdateInv(s: Root, u: nat)
    requires Inv(s) && Enabled(s, ForgetUpdate(u))
    ensures Inv(Apply(s, ForgetUpdate(u)))
  {
    var t := Apply(s, ForgetUpdate(u));
    assert UpdateOk(s, u);
    forall v | 0 <= v < |t.updates| ensures UpdateOk(t, v) {
      assert UpdateOk(s, v);
    }
    forall k | 0 <= k < |t.history| ensures EventOk(t, k) {
      assert EventOk(s, k);
    }
  }

  // The blocks that know nothing of updates.
  lemma OtherActionSame(s: Root, a: Action)
    requires Enabled(s, a)
    requires !a.DoUnmount? && !a.DoUpdate? && !a.BeginQueued? && !a.ActiveMountAwaited? && !a.OwnMountAwaited?
    requires !a.PluginUpdateSettles? && !a.RemountAwaited? && !a.ForgetUpdate?
    ensures SameUpdates(s, Apply(s, a))
  {
    hide D.CleanupLifecycle, D.StartCallback, D.SettleCallback, D.ForgetDrain, D.Register;
  }

  lemma StepInv(s: Root, a: Action)
    requires Inv(s) && Enabled(s, a)
    ensures Inv(Apply(s, a))
  {
    hide Mount, Dispose, CallUpdate, BeginMount, AfterImport, AfterPluginMount, StartUpdate, AfterActiveMount;
    hide AfterOwnMount, UpdatesOk, QueueOk, HistoryOk, AfterPluginUpdate, SetUpdate;
    match a
    case DoUnmount => UnmountInv(s);
    case DoUpdate(prepared, env) => CallUpdateInv(s, prepared, env);
    case BeginQueued(_, _) => UpdateStepInv(s, a);
    case ActiveMountAwaited(_, _) => UpdateStepInv(s, a);
    case OwnMountAwaited(_, _) => UpdateStepInv(s, a);
    case PluginUpdateSettles(_, _) => UpdateStepInv(s, a);
    case RemountAwaited(_) => UpdateStepInv(s, a);
    case ForgetUpdate(u) => ForgetUpdateInv(s, u);
    case _ =>
      OtherActionSame(s, a);
      SameInv(s, Apply(s, a));
  }
}
