// What the actions of a root do to the drains of one record, and the steps that are left until a taken
// callback has run.
module AdapterDrains {
  import opened Prelude
  import opened AdapterProtocol
  import D = Drains
  import S = AdapterSafety
  import U = AdapterUpdates

  predicate Running(s: Root, r: nat) {
    r < |s.records| && s.records[r].lifecycle.Some?
  }

  function DrainsOf(s: Root, r: nat): seq<D.Drain>
    requires Running(s, r)
  {
    s.records[r].lifecycle.value.drains
  }

  // ---- Drains are only ever added --------------------------------------------------------------------

  // The record keeps its drains, as far as they are, and may get more.
  ghost predicate KeepsDrains(s: Root, t: Root, r: nat)
    requires Running(s, r)
  {
    Running(t, r) && DrainsOf(s, r) <= DrainsOf(t, r)
  }

  lemma MountDrains(s: Root, begin: Begin, r: nat)
    requires Running(s, r)
    ensures KeepsDrains(s, Mount(s, begin).0, r)
  {
  }

  lemma TearDownDrains(s: Root, target: Option<nat>, r: nat)
    requires Running(s, r)
    ensures KeepsDrains(s, TearDownTarget(s, target), r)
  {
  }

  lemma DisposeDrains(s: Root, invalidate: bool, r: nat)
    requires Running(s, r)
    ensures KeepsDrains(s, Dispose(s, invalidate), r)
  {
    var detached := Detach(s, invalidate);
    assert KeepsDrains(s, detached, r);
    hide Detach, TearDownTarget;
    TearDownDrains(detached, s.installed, r);
    TearDownDrains(TearDownTarget(detached, s.installed), Provisional(s), r);
  }

  lemma TryUpdateDrains(s: Root, u: nat, env: UpdateEnv, lifecycle: nat, r: nat)
    requires Running(s, r) && u < |s.updates|
    ensures KeepsDrains(s, TryUpdate(s, u, env, lifecycle), r)
  {
    var disposed := Dispose(s, false);
    DisposeDrains(s, false, r);
    U.DisposeUpdates(s, false);
    var written := if s.updates[u].prepared then disposed.(history := disposed.history + [WroteRoot(u)]) else disposed;
    MountDrains(written, env.begin, r);
    U.MountSame(written, env.begin);
  }

  lemma StartUpdateDrains(s: Root, u: nat, env: UpdateEnv, r: nat)
    requires Running(s, r) && u < |s.updates|
    ensures KeepsDrains(s, StartUpdate(s, u, env), r) && KeepsDrains(s, AfterActiveMount(s, u, env), r)
    ensures KeepsDrains(s, AfterOwnMount(s, u, env), r)
  {
    MountDrains(s, env.begin, r);
    U.MountSame(s, env.begin);
    if s.installed.Some? {
      TryUpdateDrains(s, u, env, s.installed.value, r);
    }
  }

  lemma CallUpdateDrains(s: Root, prepared: bool, env: UpdateEnv, r: nat)
    requires Running(s, r)
    ensures KeepsDrains(s, CallUpdate(s, prepared, env), r)
  {
    var u := |s.updates|;
    var enqueued := s.(updates := s.updates + [Update(s.epoch, prepared, s.queue, Queued)],
                       history := s.history + [Enqueued(u)]);
    if s.queue.None? {
      StartUpdateDrains(enqueued, u, env, r);
    }
  }

  // The action starts or settles a callback of the record's drain d.
  predicate Moves(a: Action, r: nat, d: nat) {
    (a.StartCallback? || a.SettleCallback?) && a.record == r && a.drain == d
  }

  lemma BeginMountDrains(s: Root, q: nat, begin: Begin, r: nat)
    requires Running(s, r) && q < |s.records|
    ensures KeepsDrains(s, BeginMount(s, q, begin), r)
  {
  }

  lemma AfterImportDrains(s: Root, q: nat, outcome: ImportOutcome, r: nat)
    requires S.Core(s) && Running(s, r) && At(s, q, AwaitImport)
    ensures KeepsDrains(s, AfterImport(s, q, outcome), r)
  {
    assert S.RecordOk(s, r);
    hide S.Core;
  }

  lemma OwnCleanupDrains(s: Root, q: nat, aborted: bool, r: nat)
    requires Running(s, r) && q < |s.records| && s.records[q].lifecycle.Some?
    ensures KeepsDrains(s, AwaitOwnCleanup(s, q, aborted), r)
  {
  }

  lemma AfterPluginMountDrains(s: Root, q: nat, outcome: MountOutcome, r: nat)
    requires Running(s, r) && q < |s.records| && s.records[q].lifecycle.Some?
    ensures KeepsDrains(s, AfterPluginMount(s, q, outcome), r)
  {
    hide AwaitOwnCleanup;
    match outcome
    case MountThrew => OwnCleanupDrains(s, q, s.generation == s.records[q].generation, r);
    case MountReturned(isFunction, connected) =>
      var t := SetLifecycle(s, q, D.SetReturned(s.records[q].lifecycle.value, isFunction));
      assert KeepsDrains(s, t, r);
      OwnCleanupDrains(t, q, false, r);
  }

  lemma LifecycleActionDrains(s: Root, a: Action, r: nat)
    requires Running(s, r) && Enabled(s, a) && !Moves(a, r, if a.StartCallback? || a.SettleCallback? then a.drain else 0)
    requires a.DoRegister? || a.StartCallback? || a.SettleCallback? || a.ForgetDrain?
    ensures KeepsDrains(s, Apply(s, a), r)
  {
  }

  lemma StepDrains(s: Root, a: Action, r: nat)
    requires S.Core(s) && Running(s, r) && Enabled(s, a) && forall d: nat :: !Moves(a, r, d)
    ensures KeepsDrains(s, Apply(s, a), r)
  {
    hide S.Core, Mount, Dispose, CallUpdate, BeginMount, AfterImport, AfterPluginMount, StartUpdate;
    hide AfterActiveMount, AfterOwnMount;
    match a
    case DoMount(begin) => MountDrains(s, begin, r);
    case DoUnmount => DisposeDrains(s, true, r);
    case DoUpdate(prepared, env) => CallUpdateDrains(s, prepared, env, r);
    case BeginQueued(u, env) => StartUpdateDrains(s, u, env, r);
    case ActiveMountAwaited(u, env) => StartUpdateDrains(s, u, env, r);
    case OwnMountAwaited(u, env) => StartUpdateDrains(s, u, env, r);
    case ResumeMount(q, begin) => BeginMountDrains(s, q, begin, r);
    case ImportSettles(q, imported) => AfterImportDrains(s, q, imported, r);
    case PluginMountSettles(q, mounted) => AfterPluginMountDrains(s, q, mounted, r);
    case CleanupAwaited(_) =>
    case DoRegister(_) => LifecycleActionDrains(s, a, r);
    case StartCallback(_, _) => LifecycleActionDrains(s, a, r);
    case SettleCallback(_, _) => LifecycleActionDrains(s, a, r);
    case ForgetDrain(_, _) => LifecycleActionDrains(s, a, r);
    case _ => assert Apply(s, a).records == s.records;
  }

  // ---- What is left up to a drain --------------------------------------------------------------------

  // The start and settle steps left in the drains of the record up to drain k.
  function LeftTo(s: Root, r: nat, k: nat): int
    requires Running(s, r) && k < |DrainsOf(s, r)|
  {
    D.Remaining(DrainsOf(s, r)[..k + 1])
  }

  // The same drains, with the same callbacks, are there in t.
  ghost predicate StillTaken(s: Root, t: Root, r: nat, k: nat)
    requires Running(s, r) && k < |DrainsOf(s, r)|
  {
    Running(t, r) && k < |DrainsOf(t, r)| && DrainsOf(t, r)[k].callbacks == DrainsOf(s, r)[k].callbacks
  }

  // How many of the actions start or settle a callback of one of these drains.
  function MovesTo(actions: seq<Action>, r: nat, k: nat): nat {
    if actions == [] then 0 else MovesTo(actions[1..], r, k) + MoveTo(actions[0], r, k)
  }

  function MoveTo(a: Action, r: nat, k: nat): nat {
    if (a.StartCallback? || a.SettleCallback?) && a.record == r && a.drain <= k then 1 else 0
  }

  lemma UpdateLeft(drains: seq<D.Drain>, d: nat, drain: D.Drain, k: nat)
    requires d < |drains| && k < |drains| && D.StepsLeft(drain) == D.StepsLeft(drains[d]) - 1
    ensures D.Remaining(drains[d := drain][..k + 1]) == D.Remaining(drains[..k + 1]) - (if d <= k then 1 else 0)
  {
    if d <= k {
      assert drains[d := drain][..k + 1] == drains[..k + 1][d := drain];
      D.RemainingUpdate(drains[..k + 1], d, drain);
    } else {
      assert drains[d := drain][..k + 1] == drains[..k + 1];
    }
  }

  lemma MoveLeft(s: Root, a: Action, r: nat, k: nat)
    requires Running(s, r) && k < |DrainsOf(s, r)| && Enabled(s, a)
    requires (a.StartCallback? || a.SettleCallback?) && a.record == r
    ensures StillTaken(s, Apply(s, a), r, k)
    ensures LeftTo(Apply(s, a), r, k) == LeftTo(s, r, k) - MoveTo(a, r, k)
  {
    var drains := DrainsOf(s, r);
    var after := DrainsOf(Apply(s, a), r)[a.drain];
    assert DrainsOf(Apply(s, a), r) == drains[a.drain := after];
    UpdateLeft(drains, a.drain, after, k);
  }

  // No action raises what is left, and exactly the moves of these drains lower it, by one.
  lemma StepLeft(s: Root, a: Action, r: nat, k: nat)
    requires S.Core(s) && Running(s, r) && k < |DrainsOf(s, r)| && Enabled(s, a)
    ensures StillTaken(s, Apply(s, a), r, k)
    ensures LeftTo(Apply(s, a), r, k) == LeftTo(s, r, k) - MoveTo(a, r, k)
  {
    if (a.StartCallback? || a.SettleCallback?) && a.record == r {
      MoveLeft(s, a, r, k);
    } else {
      StepDrains(s, a, r);
      assert DrainsOf(Apply(s, a), r)[..k + 1] == DrainsOf(s, r)[..k + 1];
      assert DrainsOf(Apply(s, a), r)[k] == DrainsOf(s, r)[k];
    }
  }

  predicate SettledTo(l: D.Lifecycle, k: nat)
    requires k < |l.drains|
  {
    forall d :: 0 <= d <= k ==> l.drains[d].Settled()
  }

  lemma LeftIsSettled(l: D.Lifecycle, k: nat)
    requires D.Inv(l) && k < |l.drains|
    ensures 0 <= D.Remaining(l.drains[..k + 1])
    ensures D.Remaining(l.drains[..k + 1]) == 0 <==> SettledTo(l, k)
  {
    var front := l.drains[..k + 1];
    forall i | 0 <= i < |front| ensures D.DrainOk(front, i) {
      assert D.DrainOk(l.drains, i);
    }
    D.RemainingSettled(front);
    assert forall i :: 0 <= i <= k ==> front[i] == l.drains[i];
  }

  // While something is left, one of these drains can go on.
  lemma LeftCanMove(l: D.Lifecycle, k: nat) returns (d: nat)
    requires D.Inv(l) && k < |l.drains| && D.Remaining(l.drains[..k + 1]) > 0
    ensures d <= k && (D.CanStart(l, d) || D.CanSettle(l, d))
  {
    LeftIsSettled(l, k);
    d := D.DrainProgress(l);
  }
}
