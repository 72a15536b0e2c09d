// Safety of the adapter protocol: an invariant of every reachable state and what it implies.
module AdapterSafety {
  import opened Prelude
  import opened AdapterProtocol
  import D = Drains
  import U = AdapterUpdates

  // ---- Invariant -------------------------------------------------------------------------------------

  ghost predicate AllBarriersSettled(s: Root) {
    forall b :: 0 <= b < |s.barriers| ==> s.barriers[b].settled
  }

  ghost predicate RecordOk(s: Root, r: nat)
    requires r < |s.records|
  {
    var record := s.records[r];
    && record.generation <= s.generation
    && (record.attached || record.point.AwaitPluginMount? || record.point.AwaitCleanup? ==> record.lifecycle.Some?)
    && (record.point.AwaitTeardown? || record.point.AwaitImport? ==> record.lifecycle.None?)
    && (record.lifecycle.Some? ==> D.Inv(record.lifecycle.value))
    && (record.generation == s.generation ==> Unsuperseded(s, record))
  }

  // No dispose has happened since the record was made, so no barrier either.
  ghost predicate Unsuperseded(s: Root, record: Record) {
    && (record.prior.Some? ==> record.prior.value + 1 == |s.barriers|)
    && (record.prior.None? || record.point != AwaitTeardown ==> AllBarriersSettled(s))
  }

  ghost predicate RecordsOk(s: Root) {
    && (forall r :: 0 <= r < |s.records| ==> RecordOk(s, r))
    && (forall r, q :: 0 <= r < q < |s.records| ==> s.records[r].generation < s.records[q].generation)
  }

  ghost predicate InstalledOk(s: Root, r: nat) {
    && r < |s.records|
    && s.records[r].generation == s.generation
    && !s.records[r].aborted
    && !s.records[r].attached
    && s.records[r].point == Done
    && s.records[r].lifecycle.Some?
  }

  ghost predicate SlotsOk(s: Root) {
    && s.pending == s.mountTask
    && (s.pending.Some? ==> s.pending.value < |s.records| && s.records[s.pending.value].generation == s.generation)
    && (s.installed.Some? ==> InstalledOk(s, s.installed.value))
  }

  // The drain that a barrier waits for is there.
  predicate WorkExists(s: Root, work: Option<(nat, nat)>) {
    work.Some? ==>
      && work.value.0 < |s.records| && s.records[work.value.0].lifecycle.Some?
      && work.value.1 < |s.records[work.value.0].lifecycle.value.drains|
  }

  ghost predicate BarrierOk(s: Root, b: nat)
    requires b < |s.barriers|
  {
    var barrier := s.barriers[b];
    && WorkExists(s, barrier.work)
    && (|| (barrier.previous.Some? && barrier.previous.value + 1 == b)
        || (barrier.previous.None? && forall c :: 0 <= c < b ==> s.barriers[c].settled))
    && (barrier.settled ==> WorkSettled(s, barrier.work) && forall c :: 0 <= c < b ==> s.barriers[c].settled)
  }

  // Some barrier was made for this drain.
  ghost predicate Covered(s: Root, r: nat, d: nat) {
    exists b :: 0 <= b < |s.barriers| && s.barriers[b].work == Some((r, d))
  }

  ghost predicate DisposeDrain(s: Root, r: nat, d: nat) {
    && r < |s.records| && s.records[r].lifecycle.Some?
    && d < |s.records[r].lifecycle.value.drains|
    && s.records[r].lifecycle.value.drains[d].byDispose
  }

  ghost predicate TeardownOk(s: Root) {
    && (forall b :: 0 <= b < |s.barriers| ==> BarrierOk(s, b))
    && (match s.teardown
        case Some(t) => t + 1 == |s.barriers|
        case None => AllBarriersSettled(s))
    && (forall r: nat, d: nat :: DisposeDrain(s, r, d) ==> Covered(s, r, d))
  }

  ghost predicate Core(s: Root) {
    RecordsOk(s) && SlotsOk(s) && TeardownOk(s)
  }

  // ---- Frames ----------------------------------------------------------------------------------------

  // The drains of a lifecycle only grow, and settled ones stay settled; `byDispose` says whether dispose
  // may be the one that adds drains.
  ghost predicate DrainsGrow(l: D.Lifecycle, m: D.Lifecycle, byDispose: bool) {
    && |l.drains| <= |m.drains|
    && (forall d :: 0 <= d < |l.drains| ==>
          m.drains[d].byDispose == l.drains[d].byDispose && (l.drains[d].Settled() ==> m.drains[d].Settled()))
    && (forall d :: |l.drains| <= d < |m.drains| ==> m.drains[d].byDispose == byDispose)
  }

  ghost predicate RecordGrows(before: Record, after: Record, byDispose: bool) {
    match before.lifecycle
    case None => after.lifecycle.Some? ==> after.lifecycle.value.drains == []
    case Some(l) => after.lifecycle.Some? && DrainsGrow(l, after.lifecycle.value, byDispose)
  }

  ghost predicate RecordKeeps(before: Record, after: Record) {
    RecordGrows(before, after, false)
  }

  lemma TeardownFrame(s: Root, t: Root)
    requires TeardownOk(s)
    requires t.barriers == s.barriers && t.teardown == s.teardown
    requires |s.records| <= |t.records|
    requires forall r :: 0 <= r < |s.records| ==> RecordKeeps(s.records[r], t.records[r])
    requires forall r :: |s.records| <= r < |t.records| ==> t.records[r].lifecycle.None?
    ensures TeardownOk(t)
  {
    forall b | 0 <= b < |t.barriers| ensures BarrierOk(t, b) {
      assert BarrierOk(s, b);
      WorkSettledFrame(s, t, s.barriers[b].work, false);
    }
    forall r: nat, d: nat | DisposeDrain(t, r, d) ensures Covered(t, r, d) {
      assert RecordKeeps(s.records[r], t.records[r]);
      assert DisposeDrain(s, r, d);
      assert Covered(s, r, d);
    }
  }

  lemma WorkSettledFrame(s: Root, t: Root, work: Option<(nat, nat)>, byDispose: bool)
    requires |s.records| <= |t.records|
    requires forall r :: 0 <= r < |s.records| ==> RecordGrows(s.records[r], t.records[r], byDispose)
    ensures WorkSettled(s, work) ==> WorkSettled(t, work)
    ensures WorkExists(s, work) ==> WorkExists(t, work)
  {
    if work.Some? && (WorkSettled(s, work) || WorkExists(s, work)) {
      var r := work.value.0;
      assert RecordGrows(s.records[r], t.records[r], byDispose);
    }
  }

  // One record is replaced by one that is at least as far; everything else stays.
  lemma SetRecordCore(s: Root, r: nat, record: Record)
    requires RecordsOk(s) && TeardownOk(s) && r < |s.records|
    requires RecordKeeps(s.records[r], record) && record.generation == s.records[r].generation
    requires RecordOk(SetRecord(s, r, record), r)
    ensures RecordsOk(SetRecord(s, r, record)) && TeardownOk(SetRecord(s, r, record))
  {
    var t := SetRecord(s, r, record);
    forall q | 0 <= q < |t.records| ensures RecordOk(t, q) {
      if q != r {
        assert RecordOk(s, q);
      }
    }
    forall q | 0 <= q < |s.records| ensures RecordKeeps(s.records[q], t.records[q]) {
    }
    TeardownFrame(s, t);
  }

  // ---- Mount -----------------------------------------------------------------------------------------

  lemma FinishCore(s: Root, r: nat, aborted: bool)
    requires Core(s) && r < |s.records| && s.records[r].point != Done
    requires s.records[r].generation == s.generation && s.records[r].point == AwaitTeardown ==> AllBarriersSettled(s)
    ensures Core(Finish(s, r, aborted))
  {
    assert RecordOk(s, r);
    SetRecordCore(s, r, s.records[r].(point := Done, aborted := s.records[r].aborted || aborted));
  }

  lemma BeginMountCore(s: Root, r: nat, begin: Begin)
    requires Core(s) && r < |s.records| && s.records[r].point == AwaitTeardown
    requires s.records[r].generation == s.generation ==> AllBarriersSettled(s)
    ensures Core(BeginMount(s, r, begin))
  {
    if !IsCurrent(s, r) || begin.Disconnected? {
      FinishCore(s, r, false);
    } else if begin.Importing? {
      assert RecordOk(s, r);
      SetRecordCore(s, r, s.records[r].(point := AwaitImport));
    } else {
      FinishCore(s, r, true);
    }
  }

  function NewRecord(s: Root): Root {
    var record := Record(s.generation + 1, false, s.teardown, AwaitTeardown, false, None);
    s.(generation := s.generation + 1, pending := Some(|s.records|), mountTask := Some(|s.records|),
       records := s.records + [record])
  }

  lemma NewRecordCore(s: Root)
    requires Core(s) && s.installed.None?
    ensures Core(NewRecord(s))
  {
    var t := NewRecord(s);
    forall r | 0 <= r < |t.records| ensures RecordOk(t, r) {
      if r < |s.records| {
        assert RecordOk(s, r);
      }
    }
    forall r, q | 0 <= r < q < |t.records| ensures t.records[r].generation < t.records[q].generation {
      assert RecordOk(s, r);
    }
    forall r | 0 <= r < |s.records| ensures RecordKeeps(s.records[r], t.records[r]) {
    }
    TeardownFrame(s, t);
  }

  lemma MountCore(s: Root, begin: Begin)
    requires Core(s)
    ensures Core(Mount(s, begin).0)
  {
    if s.installed.None? && s.mountTask.None? {
      NewRecordCore(s);
      if s.teardown.None? {
        BeginMountCore(NewRecord(s), |s.records|, begin);
      }
    }
  }

  lemma ResumeMountCore(s: Root, r: nat, begin: Begin)
    requires Core(s) && Enabled(s, ResumeMount(r, begin))
    ensures Core(BeginMount(s, r, begin))
  {
    assert RecordOk(s, r);
    if s.records[r].generation == s.generation {
      CapturedBarrierSettled(s, r);
    }
    BeginMountCore(s, r, begin);
  }

  // Once the barrier captured by the newest record has settled, every barrier has.
  lemma CapturedBarrierSettled(s: Root, r: nat)
    requires Core(s) && r < |s.records| && s.records[r].generation == s.generation
    requires BarrierSettled(s, s.records[r].prior)
    ensures AllBarriersSettled(s)
  {
    assert RecordOk(s, r);
    if s.records[r].prior.Some? {
      assert BarrierOk(s, s.records[r].prior.value);
    }
  }

  lemma AfterImportCore(s: Root, r: nat, outcome: ImportOutcome)
    requires Core(s) && At(s, r, AwaitImport)
    ensures Core(AfterImport(s, r, outcome))
  {
    assert RecordOk(s, r);
    match outcome
    case ImportFailed => FinishCore(s, r, s.generation == s.records[r].generation);
    case Imported(connected) =>
      if !IsCurrent(s, r) || !connected {
        FinishCore(s, r, false);
      } else {
        D.FreshInv();
        var record := s.records[r].(point := AwaitPluginMount, attached := true, lifecycle := Some(D.FRESH_LIFECYCLE));
        SetRecordCore(s, r, record);
      }
  }

  lemma CleanupLifecycleGrows(l: D.Lifecycle, byDispose: bool)
    requires D.Inv(l)
    ensures var (m, work) := D.CleanupLifecycle(l, byDispose);
      && DrainsGrow(l, m, byDispose) && |m.drains| <= |l.drains| + 1
      && (|m.drains| > |l.drains| ==> work == Some(|l.drains|))
      && (work.Some? ==> work.value < |m.drains|)
  {
  }

  lemma AwaitOwnCleanupCore(s: Root, r: nat, aborted: bool)
    requires Core(s) && r < |s.records| && s.records[r].lifecycle.Some? && s.records[r].point == AwaitPluginMount
    ensures Core(AwaitOwnCleanup(s, r, aborted))
  {
    assert RecordOk(s, r);
    var l := s.records[r].lifecycle.value;
    var (m, work) := D.CleanupLifecycle(l, false);
    D.CleanupLifecycleInv(l, false);
    CleanupLifecycleGrows(l, false);
    SetRecordCore(s, r, s.records[r].(lifecycle := Some(m), aborted := s.records[r].aborted || aborted, point := AwaitCleanup(work)));
  }

  lemma AfterPluginMountCore(s: Root, r: nat, outcome: MountOutcome)
    requires Core(s) && At(s, r, AwaitPluginMount) && s.records[r].lifecycle.Some?
    ensures Core(AfterPluginMount(s, r, outcome))
  {
    assert RecordOk(s, r);
    match outcome
    case MountThrew => AwaitOwnCleanupCore(s, r, s.generation == s.records[r].generation);
    case MountReturned(isFunction, connected) =>
      var l := D.SetReturned(s.records[r].lifecycle.value, isFunction);
      D.SetReturnedInv(s.records[r].lifecycle.value, isFunction);
      var t := SetRecord(s, r, s.records[r].(lifecycle := Some(l)));
      SetRecordCore(s, r, s.records[r].(lifecycle := Some(l)));
      assert Core(t);
      if !IsCurrent(t, r) || !connected {
        AwaitOwnCleanupCore(t, r, false);
      } else {
        assert RecordOk(t, r);
        var record := t.records[r].(attached := false, point := Done);
        SetRecordCore(t, r, record);
        InstallCore(SetRecord(t, r, record), r);
      }
  }

  lemma InstallCore(s: Root, r: nat)
    requires RecordsOk(s) && TeardownOk(s) && s.pending == s.mountTask && s.pending == Some(r)
    requires InstalledOk(s, r)
    ensures Core(s.(installed := Some(r)))
  {
    var t := s.(installed := Some(r));
    forall q | 0 <= q < |t.records| ensures RecordOk(t, q) {
      assert RecordOk(s, q);
    }
    forall q | 0 <= q < |s.records| ensures RecordKeeps(s.records[q], t.records[q]) {
    }
    TeardownFrame(s, t);
  }

  lemma TaskHandlerCore(s: Root, r: nat)
    requires Core(s)
    ensures Core(TaskHandler(s, r))
  {
    var t := TaskHandler(s, r);
    forall q | 0 <= q < |t.records| ensures RecordOk(t, q) {
      assert RecordOk(s, q);
    }
    forall q | 0 <= q < |s.records| ensures RecordKeeps(s.records[q], t.records[q]) {
    }
    TeardownFrame(s, t);
  }

  // ---- Cleanup and barriers --------------------------------------------------------------------------

  lemma SetLifecycleCore(s: Root, r: nat, l: D.Lifecycle)
    requires Core(s) && r < |s.records| && s.records[r].lifecycle.Some?
    requires D.Inv(l) && DrainsGrow(s.records[r].lifecycle.value, l, false)
    ensures Core(SetLifecycle(s, r, l))
  {
    assert RecordOk(s, r);
    SetRecordCore(s, r, s.records[r].(lifecycle := Some(l)));
  }

  // What an action of the lifecycle makes of it.
  lemma LifecycleStepInv(l: D.Lifecycle, m: D.Lifecycle, aborted: bool, d: nat)
    requires D.Inv(l)
    requires
      || m == D.Register(l, aborted)
      || (D.CanStart(l, d) && m == D.StartCallback(l, d))
      || (D.CanSettle(l, d) && m == D.SettleCallback(l, d))
      || (d < |l.drains| && l.drains[d].Settled() && m == D.ForgetDrain(l, d))
    ensures D.Inv(m) && DrainsGrow(l, m, false)
  {
    hide D.Inv;
    if m == D.Register(l, aborted) {
      D.RegisterInv(l, aborted);
    } else if D.CanStart(l, d) && m == D.StartCallback(l, d) {
      D.StartCallbackInv(l, d);
    } else if D.CanSettle(l, d) && m == D.SettleCallback(l, d) {
      D.SettleCallbackInv(l, d);
    } else {
      D.ForgetDrainInv(l, d);
    }
  }

  lemma LifecycleActionCore(s: Root, a: Action)
    requires Core(s) && Enabled(s, a)
    requires a.DoRegister? || a.StartCallback? || a.SettleCallback? || a.ForgetDrain?
    ensures Core(Apply(s, a))
  {
    var r := a.record;
    assert RecordOk(s, r);
    hide Core, RecordOk, D.Inv, DrainsGrow, D.Register, D.StartCallback, D.SettleCallback, D.ForgetDrain;
    var m := Apply(s, a).records[r].lifecycle.value;
    LifecycleStepInv(s.records[r].lifecycle.value, m, s.records[r].aborted, if a.DoRegister? then 0 else a.drain);
    SetLifecycleCore(s, r, m);
  }

  // Barriers may settle and the latest may be forgotten; records and slots stay.
  lemma BarriersCore(s: Root, t: Root)
    requires Core(s)
    requires t == s.(barriers := t.barriers, teardown := t.teardown)
    requires |t.barriers| == |s.barriers|
    requires forall b :: 0 <= b < |s.barriers| ==>
      t.barriers[b].work == s.barriers[b].work && (s.barriers[b].settled ==> t.barriers[b].settled)
    requires forall b :: 0 <= b < |t.barriers| ==> BarrierOk(t, b)
    requires match t.teardown
      case Some(b) => b + 1 == |t.barriers|
      case None => AllBarriersSettled(t)
    ensures Core(t)
  {
    forall r | 0 <= r < |t.records| ensures RecordOk(t, r) {
      assert RecordOk(s, r);
    }
    forall r: nat, d: nat | DisposeDrain(t, r, d) ensures Covered(t, r, d) {
      assert DisposeDrain(s, r, d);
      var b :| 0 <= b < |s.barriers| && s.barriers[b].work == Some((r, d));
      assert t.barriers[b].work == Some((r, d));
    }
  }

  lemma SettleBarrierCore(s: Root, b: nat)
    requires Core(s) && Enabled(s, SettleBarrier(b))
    ensures Core(Apply(s, SettleBarrier(b)))
  {
    var t := Apply(s, SettleBarrier(b));
    assert BarrierOk(s, b);
    if s.barriers[b].previous.Some? {
      assert BarrierOk(s, b - 1);
    }
    forall c | 0 <= c < |t.barriers| ensures BarrierOk(t, c) {
      assert BarrierOk(s, c);
    }
    BarriersCore(s, t);
  }

  lemma ForgetBarrierCore(s: Root, b: nat)
    requires Core(s) && Enabled(s, ForgetBarrier(b))
    ensures Core(Apply(s, ForgetBarrier(b)))
  {
    var t := Apply(s, ForgetBarrier(b));
    assert BarrierOk(s, b);
    forall c | 0 <= c < |t.barriers| ensures BarrierOk(t, c) {
      assert BarrierOk(s, c);
    }
    BarriersCore(s, t);
  }

  // ---- Dispose ---------------------------------------------------------------------------------------

  // Between a dispose and the next mount every record is superseded.
  ghost predicate Detached(s: Root) {
    && RecordsOk(s) && TeardownOk(s)
    && s.pending.None? && s.mountTask.None? && s.installed.None?
    && (forall r :: 0 <= r < |s.records| ==> s.records[r].generation < s.generation)
  }

  lemma AbortRecordOk(s: Root, target: Option<nat>)
    requires RecordsOk(s) && TeardownOk(s)
    ensures RecordsOk(AbortRecord(s, target)) && TeardownOk(AbortRecord(s, target))
    ensures |AbortRecord(s, target).records| == |s.records|
    ensures forall r :: 0 <= r < |s.records| ==>
      AbortRecord(s, target).records[r] == s.records[r].(aborted := AbortRecord(s, target).records[r].aborted)
  {
    if target.Some? && target.value < |s.records| {
      assert RecordOk(s, target.value);
      SetRecordCore(s, target.value, s.records[target.value].(aborted := true));
    }
  }

  lemma DetachOk(s: Root, t: Root)
    requires RecordsOk(s) && TeardownOk(s)
    requires t.records == s.records && t.barriers == s.barriers && t.teardown == s.teardown
    requires t.generation == s.generation + 1
    requires t.pending.None? && t.mountTask.None? && t.installed.None?
    ensures Detached(t)
  {
    forall r | 0 <= r < |t.records| ensures RecordOk(t, r) && t.records[r].generation < t.generation {
      assert RecordOk(s, r);
    }
    forall q | 0 <= q < |s.records| ensures RecordKeeps(s.records[q], t.records[q]) {
    }
    TeardownFrame(s, t);
  }

  lemma TearDownRecords(s: Root, r: nat)
    requires r < |s.records| && s.records[r].lifecycle.Some? && D.Inv(s.records[r].lifecycle.value)
    ensures |TearDown(s, r).records| == |s.records|
    ensures forall q :: 0 <= q < |s.records| ==> RecordGrows(s.records[q], TearDown(s, r).records[q], true)
  {
    CleanupLifecycleGrows(s.records[r].lifecycle.value, true);
  }

  lemma TearDownBarrier(s: Root, r: nat, b: nat)
    requires Detached(s) && r < |s.records| && s.records[r].lifecycle.Some? && b <= |s.barriers|
    ensures BarrierOk(TearDown(s, r), b)
  {
    assert RecordOk(s, r);
    if b < |s.barriers| {
      assert BarrierOk(s, b);
      TearDownRecords(s, r);
      WorkSettledFrame(s, TearDown(s, r), s.barriers[b].work, true);
    } else {
      CleanupLifecycleGrows(s.records[r].lifecycle.value, true);
    }
  }

  lemma TearDownCovers(s: Root, r: nat, q: nat, d: nat)
    requires Detached(s) && r < |s.records| && s.records[r].lifecycle.Some? && DisposeDrain(TearDown(s, r), q, d)
    ensures Covered(TearDown(s, r), q, d)
  {
    assert RecordOk(s, r);
    CleanupLifecycleGrows(s.records[r].lifecycle.value, true);
    var t := TearDown(s, r);
    if DisposeDrain(s, q, d) {
      var b :| 0 <= b < |s.barriers| && s.barriers[b].work == Some((q, d));
      assert t.barriers[b].work == Some((q, d));
    } else {
      assert t.barriers[|s.barriers|].work == Some((q, d));
    }
  }

  lemma TearDownTeardown(s: Root, r: nat)
    requires Detached(s) && r < |s.records| && s.records[r].lifecycle.Some?
    ensures TeardownOk(TearDown(s, r))
  {
    var t := TearDown(s, r);
    forall b | 0 <= b < |t.barriers| ensures BarrierOk(t, b) {
      TearDownBarrier(s, r, b);
    }
    forall q: nat, d: nat | DisposeDrain(t, q, d) ensures Covered(t, q, d) {
      TearDownCovers(s, r, q, d);
    }
  }

  lemma TearDownOk(s: Root, r: nat)
    requires Detached(s) && r < |s.records| && s.records[r].lifecycle.Some?
    ensures Detached(TearDown(s, r))
  {
    assert RecordOk(s, r);
    D.CleanupLifecycleInv(s.records[r].lifecycle.value, true);
    TearDownTeardown(s, r);
    var t := TearDown(s, r);
    forall q | 0 <= q < |t.records| ensures RecordOk(t, q) {
      assert RecordOk(s, q);
    }
  }

  lemma TearDownTargetOk(s: Root, target: Option<nat>)
    requires Detached(s)
    ensures Detached(TearDownTarget(s, target))
  {
    if HasLifecycle(s, target) {
      TearDownOk(s, target.value);
    }
  }

  lemma DetachedCore(s: Root)
    requires Detached(s)
    ensures Core(s)
  {
  }

  lemma DetachDetached(s: Root, invalidate: bool)
    requires RecordsOk(s) && TeardownOk(s)
    ensures Detached(Detach(s, invalidate))
  {
    AbortRecordOk(s, s.pending);
    AbortRecordOk(AbortRecord(s, s.pending), s.installed);
    DetachOk(AbortRecord(AbortRecord(s, s.pending), s.installed), Detach(s, invalidate));
  }

  lemma DisposeDetached(s: Root, invalidate: bool)
    requires Core(s)
    ensures Detached(Dispose(s, invalidate))
  {
    DetachDetached(s, invalidate);
    TearDownTargetOk(Detach(s, invalidate), s.installed);
    TearDownTargetOk(TearDownTarget(Detach(s, invalidate), s.installed), Provisional(s));
  }

  lemma DisposeCore(s: Root, invalidate: bool)
    requires Core(s)
    ensures Core(Dispose(s, invalidate))
  {
    DisposeDetached(s, invalidate);
    DetachedCore(Dispose(s, invalidate));
  }

  // ---- Updates and single steps ----------------------------------------------------------------------

  lemma UpdatesFrame(s: Root, t: Root)
    requires Core(s)
    requires t == s.(updates := t.updates, queue := t.queue, epoch := t.epoch, history := t.history)
    ensures Core(t)
  {
    forall r | 0 <= r < |t.records| ensures RecordOk(t, r) {
      assert RecordOk(s, r);
    }
    forall r | 0 <= r < |s.records| ensures RecordKeeps(s.records[r], t.records[r]) {
    }
    TeardownFrame(s, t);
  }

  lemma TryUpdateCore(s: Root, u: nat, env: UpdateEnv, lifecycle: nat)
    requires Core(s) && u < |s.updates|
    ensures Core(TryUpdate(s, u, env, lifecycle))
  {
    if env.hasUpdate || (!s.updates[u].prepared && env.parseFails) {
      UpdatesFrame(s, TryUpdate(s, u, env, lifecycle));
    } else {
      var disposed := Dispose(s, false);
      DisposeCore(s, false);
      U.DisposeUpdates(s, false);
      var written := if s.updates[u].prepared then disposed.(history := disposed.history + [WroteRoot(u)]) else disposed;
      UpdatesFrame(disposed, written);
      MountCore(written, env.begin);
      U.MountSame(written, env.begin);
      UpdatesFrame(Mount(written, env.begin).0, TryUpdate(s, u, env, lifecycle));
    }
  }

  lemma AfterActiveMountCore(s: Root, u: nat, env: UpdateEnv)
    requires Core(s) && u < |s.updates|
    ensures Core(AfterActiveMount(s, u, env))
  {
    if s.epoch != s.updates[u].epoch {
      UpdatesFrame(s, AfterActiveMount(s, u, env));
    } else if s.installed.Some? {
      TryUpdateCore(s, u, env, s.installed.value);
    } else {
      MountCore(s, env.begin);
      U.MountSame(s, env.begin);
      UpdatesFrame(Mount(s, env.begin).0, AfterActiveMount(s, u, env));
    }
  }

  lemma StartUpdateCore(s: Root, u: nat, env: UpdateEnv)
    requires Core(s) && u < |s.updates|
    ensures Core(StartUpdate(s, u, env))
  {
    if s.mountTask.Some? {
      UpdatesFrame(s, StartUpdate(s, u, env));
    } else {
      AfterActiveMountCore(s, u, env);
    }
  }

  lemma CallUpdateCore(s: Root, prepared: bool, env: UpdateEnv)
    requires Core(s)
    ensures Core(CallUpdate(s, prepared, env))
  {
    var u := |s.updates|;
    var enqueued := s.(updates := s.updates + [Update(s.epoch, prepared, s.queue, Queued)],
                       history := s.history + [Enqueued(u)]);
    UpdatesFrame(s, enqueued);
    var started := if s.queue.None? then StartUpdate(enqueued, u, env) else enqueued;
    if s.queue.None? {
      StartUpdateCore(enqueued, u, env);
    }
    UpdatesFrame(started, started.(queue := Some(u)));
  }

  lemma CleanupAwaitedCore(s: Root, r: nat)
    requires Core(s) && Enabled(s, CleanupAwaited(r))
    ensures Core(Apply(s, CleanupAwaited(r)))
  {
    FinishCore(s, r, false);
  }

  lemma OwnMountAwaitedCore(s: Root, u: nat, env: UpdateEnv)
    requires Core(s) && u < |s.updates|
    ensures Core(AfterOwnMount(s, u, env))
  {
    if s.epoch != s.updates[u].epoch || s.installed.None? {
      UpdatesFrame(s, AfterOwnMount(s, u, env));
    } else {
      TryUpdateCore(s, u, env, s.installed.value);
    }
  }

  lemma StepCore(s: Root, a: Action)
    requires Core(s) && Enabled(s, a)
    ensures Core(Apply(s, a))
  {
    hide Core, Mount, Dispose, CallUpdate, BeginMount, AfterImport, AfterPluginMount, StartUpdate, AfterOwnMount;
    match a
    case DoMount(begin) => MountCore(s, begin);
    case DoUnmount => DisposeCore(s, true);
    case DoUpdate(prepared, env) => CallUpdateCore(s, prepared, env);
    case ResumeMount(r, begin) => ResumeMountCore(s, r, begin);
    case ImportSettles(r, imported) => AfterImportCore(s, r, imported);
    case PluginMountSettles(r, mounted) => AfterPluginMountCore(s, r, mounted);
    case CleanupAwaited(r) => CleanupAwaitedCore(s, r);
    case HandleTask(r) => TaskHandlerCore(s, r);
    case SettleBarrier(b) => SettleBarrierCore(s, b);
    case ForgetBarrier(b) => ForgetBarrierCore(s, b);
    case BeginQueued(u, env) => StartUpdateCore(s, u, env);
    case ActiveMountAwaited(u, env) => AfterActiveMountCore(s, u, env);
    case OwnMountAwaited(u, env) => OwnMountAwaitedCore(s, u, env);
    case PluginUpdateSettles(u, threw) => UpdatesFrame(s, Apply(s, a));
    case RemountAwaited(u) => UpdatesFrame(s, Apply(s, a));
    case ForgetUpdate(u) => UpdatesFrame(s, Apply(s, a));
    case _ => LifecycleActionCore(s, a);
  }
}
