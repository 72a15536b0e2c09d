// The mount / update / unmount protocol of one adapter root (runtime-v1.js) as a transition system.
//
// One action is one synchronous block between two awaits (or one promise handler).  The plugin, the
// importer, the policy and root.isConnected are nondeterministic: their answers are parameters of the
// actions.  Promise handlers and resumptions may happen in any order that the promises allow, which is a
// superset of what the microtask queue does.  Plugin callbacks do not re-enter the runtime synchronously.
module AdapterProtocol {
  import opened Prelude
  import D = Drains

  // Where mountInternal of a record is suspended.  Done: its task has resolved.
  datatype MountPoint = AwaitTeardown | AwaitImport | AwaitPluginMount | AwaitCleanup(drain: Option<nat>) | Done

  // `prior` is the teardown barrier captured by mount; `attached` says record.lifecycle is set;
  // `lifecycle` is the lifecycle object itself, which outlives the attachment.
  datatype Record = Record(
    generation: nat,
    aborted: bool,
    prior: Option<nat>,
    point: MountPoint,
    attached: bool,
    lifecycle: Option<D.Lifecycle>)

  // A teardown barrier waits for the previous barrier and for the drain (record, drain) it was made for.
  datatype Barrier = Barrier(previous: Option<nat>, work: Option<(nat, nat)>, settled: bool)

  datatype UpdatePoint =
    | Queued
    | AwaitActiveMount(record: nat)
    | AwaitOwnMount(task: Option<nat>)
    | AwaitPluginUpdate(lifecycle: nat)
    | AwaitRemount(task: Option<nat>)
    | Finished

  // `prepared` says the caller passed props (otherwise they are parsed from the root).
  datatype Update = Update(epoch: nat, prepared: bool, previous: Option<nat>, point: UpdatePoint)

  datatype Event = Enqueued(update: nat) | Unmounted | WroteLifecycle(update: nat) | WroteRoot(update: nat)

  // The state kept for one root: the WeakMap entries and every object they ever referred to.
  datatype Root = Root(
    generation: nat,
    pending: Option<nat>,
    mountTask: Option<nat>,
    installed: Option<nat>,
    teardown: Option<nat>,
    epoch: nat,
    queue: Option<nat>,
    records: seq<Record>,
    barriers: seq<Barrier>,
    updates: seq<Update>,
    history: seq<Event>)

  const INITIAL_ROOT := Root(0, None, None, None, None, 0, None, [], [], [], [])

  // How mountInternal continues after the teardown barrier.
  datatype Begin = Disconnected | Skipped | Misconfigured | Importing

  datatype ImportOutcome = ImportFailed | Imported(connected: bool)

  datatype MountOutcome = MountThrew | MountReturned(isFunction: bool, connected: bool)

  // What performUpdate meets: whether parsing the root's props throws, whether the plugin has an update
  // function, and how a mount that it starts begins.
  datatype UpdateEnv = UpdateEnv(parseFails: bool, hasUpdate: bool, begin: Begin)

  // ---- mount -----------------------------------------------------------------------------------------

  predicate IsCurrent(s: Root, r: nat) {
    && s.pending == Some(r)
    && r < |s.records|
    && s.generation == s.records[r].generation
    && !s.records[r].aborted
  }

  function SetRecord(s: Root, r: nat, record: Record): Root
    requires r < |s.records|
  {
    s.(records := s.records[r := record])
  }

  function Finish(s: Root, r: nat, aborted: bool): Root
    requires r < |s.records|
  {
    SetRecord(s, r, s.records[r].(point := Done, aborted := s.records[r].aborted || aborted))
  }

  // mountInternal from its first isCurrent check to the import.
  function BeginMount(s: Root, r: nat, begin: Begin): Root
    requires r < |s.records|
  {
    if !IsCurrent(s, r) || begin.Disconnected? then Finish(s, r, false)
    else if begin.Importing? then SetRecord(s, r, s.records[r].(point := AwaitImport))
    else Finish(s, r, true)
  }

  // mount; the second component is the record whose task it returns, None for an already resolved promise.
  function Mount(s: Root, begin: Begin): (Root, Option<nat>) {
    if s.installed.Some? || s.mountTask.Some? then (s, None)
    else
      var r := |s.records|;
      var record := Record(s.generation + 1, false, s.teardown, AwaitTeardown, false, None);
      var t := s.(generation := s.generation + 1, pending := Some(r), mountTask := Some(r), records := s.records + [record]);
      (if s.teardown.None? then BeginMount(t, r, begin) else t, Some(r))
  }

  // mountInternal after the import; on success it creates the lifecycle and calls plugin.mount.
  function AfterImport(s: Root, r: nat, outcome: ImportOutcome): Root
    requires r < |s.records|
  {
    match outcome
    case ImportFailed => Finish(s, r, s.generation == s.records[r].generation)
    case Imported(connected) =>
      if !IsCurrent(s, r) || !connected then Finish(s, r, false)
      else SetRecord(s, r, s.records[r].(point := AwaitPluginMount, attached := true, lifecycle := Some(D.FRESH_LIFECYCLE)))
  }

  // cleanupLifecycle of the record's own lifecycle, awaited by mountInternal.
  function AwaitOwnCleanup(s: Root, r: nat, aborted: bool): Root
    requires r < |s.records| && s.records[r].lifecycle.Some?
  {
    var (l, work) := D.CleanupLifecycle(s.records[r].lifecycle.value, false);
    SetRecord(s, r, s.records[r].(lifecycle := Some(l), aborted := s.records[r].aborted || aborted, point := AwaitCleanup(work)))
  }

  // mountInternal after plugin.mount.
  function AfterPluginMount(s: Root, r: nat, outcome: MountOutcome): Root
    requires r < |s.records| && s.records[r].lifecycle.Some?
  {
    match outcome
    case MountThrew => AwaitOwnCleanup(s, r, s.generation == s.records[r].generation)
    case MountReturned(isFunction, connected) =>
      var l := D.SetReturned(s.records[r].lifecycle.value, isFunction);
      var t := SetRecord(s, r, s.records[r].(lifecycle := Some(l)));
      if !IsCurrent(t, r) || !connected then AwaitOwnCleanup(t, r, false)
      else SetRecord(t, r, t.records[r].(attached := false, point := Done)).(installed := Some(r))
  }

  // The handler of a resolved mount task.
  function TaskHandler(s: Root, r: nat): Root {
    s.(pending := if s.pending == Some(r) then None else s.pending,
       mountTask := if s.mountTask == Some(r) then None else s.mountTask)
  }

  // ---- dispose ---------------------------------------------------------------------------------------

  // trackTeardown(root, cleanupLifecycle(root, target, ...)).
  function TearDown(s: Root, r: nat): Root
    requires r < |s.records| && s.records[r].lifecycle.Some?
  {
    var (l, work) := D.CleanupLifecycle(s.records[r].lifecycle.value, true);
    var barrier := Barrier(s.teardown, if work.None? then None else Some((r, work.value)), false);
    SetRecord(s, r, s.records[r].(lifecycle := Some(l))).(
      barriers := s.barriers + [barrier],
      teardown := Some(|s.barriers|))
  }

  function AbortRecord(s: Root, target: Option<nat>): Root {
    if target.Some? && target.value < |s.records|
    then SetRecord(s, target.value, s.records[target.value].(aborted := true))
    else s
  }

  predicate HasLifecycle(s: Root, target: Option<nat>) {
    target.Some? && target.value < |s.records| && s.records[target.value].lifecycle.Some?
  }

  function TearDownTarget(s: Root, target: Option<nat>): Root {
    if HasLifecycle(s, target) then TearDown(s, target.value) else s
  }

  // The lifecycle a pending mount has already created.
  function Provisional(s: Root): Option<nat> {
    if s.pending.Some? && s.pending.value < |s.records| && s.records[s.pending.value].attached then s.pending else None
  }

  // dispose up to the cleanup targets: abort the controllers, empty the slots, advance the counters.
  function Detach(s: Root, invalidate: bool): Root {
    AbortRecord(AbortRecord(s, s.pending), s.installed).(
      generation := s.generation + 1,
      epoch := if invalidate then s.epoch + 1 else s.epoch,
      pending := None,
      mountTask := None,
      installed := None,
      queue := if invalidate then None else s.queue,
      history := if invalidate then s.history + [Unmounted] else s.history)
  }

  function Dispose(s: Root, invalidate: bool): Root {
    var first := TearDownTarget(Detach(s, invalidate), s.installed);
    if Provisional(s) == s.installed then first else TearDownTarget(first, Provisional(s))
  }

  // ---- update ----------------------------------------------------------------------------------------

  function SetUpdate(s: Root, u: nat, point: UpdatePoint): Root
    requires u < |s.updates|
  {
    s.(updates := s.updates[u := s.updates[u].(point := point)])
  }

  // performUpdate inside its try block, with the lifecycle it found.
  function TryUpdate(s: Root, u: nat, env: UpdateEnv, lifecycle: nat): Root
    requires u < |s.updates|
  {
    var prepared := s.updates[u].prepared;
    if !prepared && env.parseFails then SetUpdate(s, u, Finished)
    else if env.hasUpdate then SetUpdate(s, u, AwaitPluginUpdate(lifecycle))
    else
      var disposed := Dispose(s, false);
      var written := if prepared then disposed.(history := disposed.history + [WroteRoot(u)]) else disposed;
      var (mounted, task) := Mount(written, env.begin);
      SetUpdate(mounted, u, AwaitRemount(task))
  }

  // performUpdate after waiting for an active mount.
  function AfterActiveMount(s: Root, u: nat, env: UpdateEnv): Root
    requires u < |s.updates|
  {
    if s.epoch != s.updates[u].epoch then SetUpdate(s, u, Finished)
    else if s.installed.Some? then TryUpdate(s, u, env, s.installed.value)
    else
      var (mounted, task) := Mount(s, env.begin);
      SetUpdate(mounted, u, AwaitOwnMount(task))
  }

  function AfterOwnMount(s: Root, u: nat, env: UpdateEnv): Root
    requires u < |s.updates|
  {
    if s.epoch != s.updates[u].epoch || s.installed.None? then SetUpdate(s, u, Finished)
    else TryUpdate(s, u, env, s.installed.value)
  }

  // performUpdate up to its first await.
  function StartUpdate(s: Root, u: nat, env: UpdateEnv): Root
    requires u < |s.updates|
  {
    if s.mountTask.Some? then SetUpdate(s, u, AwaitActiveMount(s.mountTask.value))
    else AfterActiveMount(s, u, env)
  }

  // performUpdate after plugin.update: the re-check and the writes are one block.
  function AfterPluginUpdate(s: Root, u: nat, lifecycle: nat, threw: bool): Root
    requires u < |s.updates|
  {
    var update := s.updates[u];
    if s.installed != Some(lifecycle)
       || (lifecycle < |s.records| && s.records[lifecycle].aborted)
       || s.epoch != update.epoch
       || threw
    then SetUpdate(s, u, Finished)
    else
      SetUpdate(s, u, Finished).(
        history := s.history + [WroteLifecycle(u)] + (if update.prepared then [WroteRoot(u)] else []))
  }

  // update(root, props): enqueue behind the latest update, or run the first block at once.
  function CallUpdate(s: Root, prepared: bool, env: UpdateEnv): Root {
    var u := |s.updates|;
    var enqueued := s.(
      updates := s.updates + [Update(s.epoch, prepared, s.queue, Queued)],
      history := s.history + [Enqueued(u)]);
    var started := if s.queue.None? then StartUpdate(enqueued, u, env) else enqueued;
    started.(queue := Some(u))
  }

  // ---- Actions ---------------------------------------------------------------------------------------

  datatype Action =
    | DoMount(begin: Begin)
    | DoUnmount
    | DoUpdate(prepared: bool, env: UpdateEnv)
    | DoRegister(record: nat)
    | ResumeMount(record: nat, begin: Begin)
    | ImportSettles(record: nat, imported: ImportOutcome)
    | PluginMountSettles(record: nat, mounted: MountOutcome)
    | CleanupAwaited(record: nat)
    | HandleTask(record: nat)
    | StartCallback(record: nat, drain: nat)
    | SettleCallback(record: nat, drain: nat)
    | ForgetDrain(record: nat, drain: nat)
    | SettleBarrier(barrier: nat)
    | ForgetBarrier(barrier: nat)
    | BeginQueued(update: nat, env: UpdateEnv)
    | ActiveMountAwaited(update: nat, env: UpdateEnv)
    | OwnMountAwaited(update: nat, env: UpdateEnv)
    | PluginUpdateSettles(update: nat, threw: bool)
    | RemountAwaited(update: nat)
    | ForgetUpdate(update: nat)

  predicate At(s: Root, r: nat, point: MountPoint) {
    r < |s.records| && s.records[r].point == point
  }

  predicate BarrierSettled(s: Root, b: Option<nat>) {
    b.Some? ==> b.value < |s.barriers| && s.barriers[b.value].settled
  }

  predicate DrainSettled(s: Root, r: nat, d: Option<nat>) {
    d.Some? ==>
      r < |s.records| && s.records[r].lifecycle.Some?
      && d.value < |s.records[r].lifecycle.value.drains|
      && s.records[r].lifecycle.value.drains[d.value].Settled()
  }

  predicate WorkSettled(s: Root, work: Option<(nat, nat)>) {
    work.Some? ==> DrainSettled(s, work.value.0, Some(work.value.1))
  }

  predicate TaskResolved(s: Root, task: Option<nat>) {
    task.Some? ==> At(s, task.value, Done)
  }

  predicate UpdateFinished(s: Root, u: Option<nat>) {
    u.Some? ==> u.value < |s.updates| && s.updates[u.value].point == Finished
  }

  predicate Enabled(s: Root, a: Action) {
    match a
    case DoMount(_) => true
    case DoUnmount => true
    case DoUpdate(_, _) => true
    case DoRegister(r) => r < |s.records| && s.records[r].lifecycle.Some?
    case ResumeMount(r, _) => At(s, r, AwaitTeardown) && BarrierSettled(s, s.records[r].prior)
    case ImportSettles(r, _) => At(s, r, AwaitImport)
    case PluginMountSettles(r, _) => At(s, r, AwaitPluginMount) && s.records[r].lifecycle.Some?
    case CleanupAwaited(r) =>
      r < |s.records| && s.records[r].point.AwaitCleanup? && DrainSettled(s, r, s.records[r].point.drain)
    case HandleTask(r) => At(s, r, Done)
    case StartCallback(r, d) =>
      r < |s.records| && s.records[r].lifecycle.Some? && D.CanStart(s.records[r].lifecycle.value, d)
    case SettleCallback(r, d) =>
      r < |s.records| && s.records[r].lifecycle.Some? && D.CanSettle(s.records[r].lifecycle.value, d)
    case ForgetDrain(r, d) =>
      r < |s.records| && s.records[r].lifecycle.Some? && DrainSettled(s, r, Some(d))
    case SettleBarrier(b) =>
      b < |s.barriers| && BarrierSettled(s, s.barriers[b].previous) && WorkSettled(s, s.barriers[b].work)
    case ForgetBarrier(b) => BarrierSettled(s, Some(b))
    case BeginQueued(u, _) =>
      u < |s.updates| && s.updates[u].point.Queued? && UpdateFinished(s, s.updates[u].previous)
    case ActiveMountAwaited(u, _) =>
      u < |s.updates| && s.updates[u].point.AwaitActiveMount? && TaskResolved(s, Some(s.updates[u].point.record))
    case OwnMountAwaited(u, _) =>
      u < |s.updates| && s.updates[u].point.AwaitOwnMount? && TaskResolved(s, s.updates[u].point.task)
    case PluginUpdateSettles(u, _) => u < |s.updates| && s.updates[u].point.AwaitPluginUpdate?
    case RemountAwaited(u) =>
      u < |s.updates| && s.updates[u].point.AwaitRemount? && TaskResolved(s, s.updates[u].point.task)
    case ForgetUpdate(u) => UpdateFinished(s, Some(u))
  }

  function SetLifecycle(s: Root, r: nat, l: D.Lifecycle): Root
    requires r < |s.records|
  {
    SetRecord(s, r, s.records[r].(lifecycle := Some(l)))
  }

  function Apply(s: Root, a: Action): Root
    requires Enabled(s, a)
  {
    match a
    case DoMount(begin) => Mount(s, begin).0
    case DoUnmount => Dispose(s, true)
    case DoUpdate(prepared, env) => CallUpdate(s, prepared, env)
    case DoRegister(r) => SetLifecycle(s, r, D.Register(s.records[r].lifecycle.value, s.records[r].aborted))
    case ResumeMount(r, begin) => BeginMount(s, r, begin)
    case ImportSettles(r, imported) => AfterImport(s, r, imported)
    case PluginMountSettles(r, mounted) => AfterPluginMount(s, r, mounted)
    case CleanupAwaited(r) => Finish(s, r, false)
    case HandleTask(r) => TaskHandler(s, r)
    case StartCallback(r, d) => SetLifecycle(s, r, D.StartCallback(s.records[r].lifecycle.value, d))
    case SettleCallback(r, d) => SetLifecycle(s, r, D.SettleCallback(s.records[r].lifecycle.value, d))
    case ForgetDrain(r, d) => SetLifecycle(s, r, D.ForgetDrain(s.records[r].lifecycle.value, d))
    case SettleBarrier(b) => s.(barriers := s.barriers[b := s.barriers[b].(settled := true)])
    case ForgetBarrier(b) => s.(teardown := if s.teardown == Some(b) then None else s.teardown)
    case BeginQueued(u, env) => StartUpdate(s, u, env)
    case ActiveMountAwaited(u, env) => AfterActiveMount(s, u, env)
    case OwnMountAwaited(u, env) => AfterOwnMount(s, u, env)
    case PluginUpdateSettles(u, threw) => AfterPluginUpdate(s, u, s.updates[u].point.lifecycle, threw)
    case RemountAwaited(u) => SetUpdate(s, u, Finished)
    case ForgetUpdate(u) => s.(queue := if s.queue == Some(u) then None else s.queue)
  }

  // A run of any length.
  ghost predicate Run(s: Root, actions: seq<Action>, t: Root)
    decreases |actions|
  {
    if actions == [] then s == t
    else Enabled(s, actions[0]) && Run(Apply(s, actions[0]), actions[1..], t)
  }

  ghost predicate Reachable(s: Root) {
    exists actions :: Run(INITIAL_ROOT, actions, s)
  }
}
