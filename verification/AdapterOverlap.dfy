// When a cleanup can overlap the next plugin.mount: exactly what an unmount decides by finding plugin.mount
// of its record unfinished.
module AdapterOverlap {
  import opened Prelude
  import opened AdapterProtocol
  import opened AdapterTheorems
  import opened AdapterDrains
  import D = Drains
  import S = AdapterSafety
  import O = AdapterOwnCleanup
  import W = AdapterStranded

  // ---- Continuations ---------------------------------------------------------------------------------

  // Some continuation of s ends in t.
  ghost predicate Leads(s: Root, t: Root) {
    exists actions :: Run(s, actions, t)
  }

  lemma {:induction false} RunConcat(s: Root, first: seq<Action>, t: Root, second: seq<Action>, u: Root)
    requires Run(s, first, t) && Run(t, second, u)
    ensures Run(s, first + second, u)
    decreases |first|
  {
    if first == [] {
      assert first + second == second;
    } else {
      RunConcat(Apply(s, first[0]), first[1..], t, second, u);
      assert (first + second)[1..] == first[1..] + second;
    }
  }

  lemma LeadsStays(s: Root)
    ensures Leads(s, s)
  {
    assert Run(s, [], s);
  }

  lemma LeadsOn(s: Root, t: Root, u: Root)
    requires Leads(s, t) && Leads(t, u)
    ensures Leads(s, u)
  {
    var first :| Run(s, first, t);
    var second :| Run(t, second, u);
    RunConcat(s, first, t, second, u);
  }

  lemma LeadsReachable(s: Root, t: Root)
    requires Reachable(s) && Leads(s, t)
    ensures Reachable(t)
  {
    var first :| Run(INITIAL_ROOT, first, s);
    var second :| Run(s, second, t);
    RunConcat(INITIAL_ROOT, first, s, second, t);
  }

  lemma LeadsByOne(s: Root, a: Action)
    requires Enabled(s, a)
    ensures Leads(s, Apply(s, a))
  {
    var t := Apply(s, a);
    assert Run(t, [], t) && [a][1..] == [];
    assert Run(s, [a], t);
  }

  // ---- All barriers can settle -----------------------------------------------------------------------

  ghost predicate SameRecord(before: Record, after: Record) {
    after.point == before.point && after.lifecycle.Some? == before.lifecycle.Some?
  }

  ghost predicate SameBarrier(before: Barrier, after: Barrier) {
    after.previous == before.previous && after.work == before.work && (before.settled ==> after.settled)
  }

  // Only drains and barriers have gone on.
  ghost predicate Kept(s: Root, t: Root) {
    && t.pending == s.pending && t.mountTask == s.mountTask && t.installed == s.installed && t.teardown == s.teardown
    && |t.records| == |s.records| && (forall q :: 0 <= q < |s.records| ==> SameRecord(s.records[q], t.records[q]))
    && |t.barriers| == |s.barriers| && (forall b :: 0 <= b < |s.barriers| ==> SameBarrier(s.barriers[b], t.barriers[b]))
  }

  // What a continuation that settles things keeps.
  ghost predicate Onward(s: Root, t: Root) {
    Leads(s, t) && Reachable(t) && Kept(s, t)
  }

  lemma OnwardStays(s: Root)
    requires Reachable(s)
    ensures Onward(s, s)
  {
    LeadsStays(s);
  }

  lemma OnwardOn(s: Root, t: Root, u: Root)
    requires Onward(s, t) && Onward(t, u)
    ensures Onward(s, u)
  {
    LeadsOn(s, t, u);
    forall q | 0 <= q < |s.records| ensures SameRecord(s.records[q], u.records[q]) {
      assert SameRecord(s.records[q], t.records[q]) && SameRecord(t.records[q], u.records[q]);
    }
    forall b | 0 <= b < |s.barriers| ensures SameBarrier(s.barriers[b], u.barriers[b]) {
      assert SameBarrier(s.barriers[b], t.barriers[b]) && SameBarrier(t.barriers[b], u.barriers[b]);
    }
  }

  ghost function StepsToGo(s: Root, r: nat): int
    requires Running(s, r)
  {
    D.Remaining(s.records[r].lifecycle.value.drains)
  }

  lemma MoveOnward(s: Root, a: Action) returns (t: Root)
    requires Reachable(s) && Enabled(s, a) && (a.StartCallback? || a.SettleCallback?)
    ensures t == Apply(s, a) && Onward(s, t)
  {
    t := Step(s, a);
    LeadsByOne(s, a);
    hide Leads, Reachable;
  }

  lemma MoveLowers(s: Root, a: Action)
    requires (a.StartCallback? || a.SettleCallback?) && Enabled(s, a)
    requires Running(s, a.record) && D.Inv(s.records[a.record].lifecycle.value)
    ensures Running(Apply(s, a), a.record) && StepsToGo(Apply(s, a), a.record) == StepsToGo(s, a.record) - 1
  {
    var l := s.records[a.record].lifecycle.value;
    if a.StartCallback? {
      D.StartStep(l, a.drain);
    } else {
      D.SettleStep(l, a.drain);
    }
    hide D.Inv, D.Remaining;
  }

  // While a drain of the record is unfinished, one of its callbacks can start or settle.
  lemma SettleOne(s: Root, r: nat) returns (t: Root)
    requires Reachable(s) && Running(s, r) && !D.AllSettled(s.records[r].lifecycle.value)
    ensures Onward(s, t) && Running(t, r) && StepsToGo(t, r) == StepsToGo(s, r) - 1
  {
    ReachableInv(s);
    assert S.RecordOk(s, r);
    var l := s.records[r].lifecycle.value;
    var d := D.DrainProgress(l);
    hide Reachable, Onward, Apply, Inv, StepsToGo, D.Inv;
    var a := if D.CanStart(l, d) then StartCallback(r, d) else SettleCallback(r, d);
    t := MoveOnward(s, a);
    MoveLowers(s, a);
  }

  lemma {:induction false} SettleRecord(s: Root, r: nat) returns (t: Root)
    requires Reachable(s) && Running(s, r)
    ensures Onward(s, t) && Running(t, r) && D.AllSettled(t.records[r].lifecycle.value)
    decreases StepsToGo(s, r)
  {
    ReachableInv(s);
    assert S.RecordOk(s, r);
    D.AllSettledOrder(s.records[r].lifecycle.value);
    if D.AllSettled(s.records[r].lifecycle.value) {
      t := s;
      OnwardStays(s);
    } else {
      var u := SettleOne(s, r);
      t := SettleRecord(u, r);
      OnwardOn(s, u, t);
    }
  }

  // The drain a barrier waits for can settle.
  lemma SettleWork(s: Root, b: nat) returns (t: Root)
    requires Reachable(s) && b < |s.barriers|
    ensures Onward(s, t) && WorkSettled(t, t.barriers[b].work)
  {
    ReachableInv(s);
    assert S.BarrierOk(s, b);
    var work := s.barriers[b].work;
    if work.Some? {
      t := SettleRecord(s, work.value.0);
      ReachableInv(t);
      assert SameBarrier(s.barriers[b], t.barriers[b]) && S.BarrierOk(t, b);
    } else {
      t := s;
      OnwardStays(s);
    }
  }

  ghost predicate SettledTo(s: Root, n: nat) {
    forall b :: 0 <= b < |s.barriers| && b < n ==> s.barriers[b].settled
  }

  lemma SettlesNext(s: Root, b: nat) returns (t: Root)
    requires Reachable(s) && b < |s.barriers| && SettledTo(s, b) && WorkSettled(s, s.barriers[b].work)
    ensures Onward(s, t) && SettledTo(t, b + 1)
  {
    ReachableInv(s);
    assert S.BarrierOk(s, b);
    hide Inv, S.BarrierOk, WorkSettled;
    t := Step(s, SettleBarrier(b));
    LeadsByOne(s, SettleBarrier(b));
    hide Leads, Reachable;
  }

  lemma SettleBarrierNext(s: Root, b: nat) returns (t: Root)
    requires Reachable(s) && b < |s.barriers| && SettledTo(s, b)
    ensures Onward(s, t) && SettledTo(t, b + 1)
  {
    var u := SettleWork(s, b);
    assert forall c :: 0 <= c < |s.barriers| ==> SameBarrier(s.barriers[c], u.barriers[c]);
    t := SettlesNext(u, b);
    OnwardOn(s, u, t);
  }

  lemma {:induction false} SettleBarriers(s: Root, n: nat) returns (t: Root)
    requires Reachable(s) && n <= |s.barriers|
    ensures Onward(s, t) && SettledTo(t, n)
  {
    if n == 0 {
      t := s;
      OnwardStays(s);
    } else {
      var u := SettleBarriers(s, n - 1);
      t := SettleBarrierNext(u, n - 1);
      OnwardOn(s, u, t);
    }
  }

  // ---- After an interrupting unmount -----------------------------------------------------------------

  // The mount of record q is still to come back from plugin.mount, and the root is free.
  ghost predicate Abandoned(s: Root, q: nat) {
    At(s, q, AwaitPluginMount) && s.pending.None? && s.mountTask.None? && s.installed.None?
  }

  lemma UnmountAbandons(s: Root, q: nat)
    requires Reachable(s) && O.Interrupts(s, DoUnmount, q)
    ensures Abandoned(Dispose(s, true), q)
  {
    ReachableInv(s);
    S.DisposeDetached(s, true);
    O.DetachPoints(s, true);
    O.TearDownTargetPoints(Detach(s, true), s.installed);
    O.TearDownTargetPoints(TearDownTarget(Detach(s, true), s.installed), Provisional(s));
  }

  // The teardown of the root can be over before its plugin.mount comes back.
  lemma TeardownEnds(s: Root, q: nat) returns (t: Root)
    requires Reachable(s) && Abandoned(s, q)
    ensures Leads(s, t) && Reachable(t) && Abandoned(t, q) && t.teardown.None?
  {
    var u := SettleBarriers(s, |s.barriers|);
    assert SameRecord(s.records[q], u.records[q]);
    if u.teardown.None? {
      t := u;
    } else {
      ReachableInv(u);
      var a := ForgetBarrier(u.teardown.value);
      t := Step(u, a);
      LeadsByOne(u, a);
      LeadsOn(s, u, t);
    }
  }

  // plugin.mount then comes back with a cleanup function: its drain is taken and not run yet.
  lemma ReturnTakenLate(s: Root, q: nat) returns (t: Root)
    requires Reachable(s) && Abandoned(s, q) && s.teardown.None?
    ensures Leads(s, t) && Reachable(t)
    ensures t.pending.None? && t.mountTask.None? && t.installed.None? && t.teardown.None?
    ensures Running(t, q) && !D.AllSettled(t.records[q].lifecycle.value)
  {
    ReachableInv(s);
    assert S.RecordOk(s, q) && O.RecordOwn(s, q);
    var a := PluginMountSettles(q, MountReturned(true, true));
    t := Step(s, a);
    LeadsByOne(s, a);
    ReturnWaits(s.records[q].lifecycle.value);
  }

  lemma ReturnWaits(l: D.Lifecycle)
    requires !l.returnedTaken
    ensures !D.AllSettled(D.CleanupLifecycle(D.SetReturned(l, true), false).0)
  {
    var m := D.SetReturned(l, true);
    var hook := if m.unmountTaken then [] else [D.UnmountHook];
    assert D.Waiting(m)[|hook|] == D.MountReturn;
    assert !D.CleanupLifecycle(m, false).0.drains[|l.drains|].Settled();
  }

  // And the next mount gets to its plugin.mount at once.
  lemma MountGoesAhead(s: Root, q: nat) returns (t: Root, a: Action, r: nat)
    requires Reachable(s) && s.pending.None? && s.mountTask.None? && s.installed.None? && s.teardown.None?
    requires Running(s, q) && !D.AllSettled(s.records[q].lifecycle.value)
    ensures Leads(s, t) && Reachable(t) && CallsPluginMount(t, a, r)
    ensures Running(t, q) && !D.AllSettled(t.records[q].lifecycle.value)
  {
    r := |s.records|;
    t := Step(s, DoMount(Importing));
    LeadsByOne(s, DoMount(Importing));
    a := ImportSettles(r, Imported(true));
    assert t.records[q] == s.records[q];
  }

  // Some continuation calls plugin.mount while a cleanup of record q is unfinished.
  ghost predicate MayOverlap(s: Root, q: nat) {
    exists t, a, r :: Leads(s, t) && OverlapsAt(t, a, r, q)
  }

  ghost predicate OverlapsAt(t: Root, a: Action, r: nat, q: nat) {
    CallsPluginMount(t, a, r) && Running(t, q) && !D.AllSettled(t.records[q].lifecycle.value)
  }

  // Every unmount that comes while plugin.mount is pending can lead to an overlap.
  lemma InterruptedMountMayOverlap(s: Root, q: nat)
    requires Reachable(s) && O.Interrupts(s, DoUnmount, q)
    ensures MayOverlap(Apply(s, DoUnmount), q)
  {
    UnmountAbandons(s, q);
    var s0 := Step(s, DoUnmount);
    var s1 := TeardownEnds(s0, q);
    var s2 := ReturnTakenLate(s1, q);
    var t, a, r := MountGoesAhead(s2, q);
    LeadsOn(s0, s1, s2);
    LeadsOn(s0, s2, t);
    assert OverlapsAt(t, a, r, q);
  }

  // ---- No other unmount can --------------------------------------------------------------------------

  lemma {:induction false} SupersededRun(s: Root, actions: seq<Action>, t: Root, q: nat)
    requires Reachable(s) && Superseded(s, q) && Run(s, actions, t)
    ensures UninterruptedRun(s, actions, t, q)
    decreases |actions|
  {
    if actions != [] {
      ReachableInv(s);
      StepLater(s, actions[0]);
      var u := Step(s, actions[0]);
      SupersededRun(u, actions[1..], t, q);
    }
  }

  // The record that an unmount finds in a slot, with its lifecycle.
  predicate Unmounts(s: Root, q: nat) {
    && q < |s.records| && s.records[q].lifecycle.Some?
    && (s.installed == Some(q) || (s.pending == Some(q) && s.records[q].attached))
  }

  lemma UnmountedWhole(s: Root, q: nat)
    requires Reachable(s) && Unmounts(s, q) && !At(s, q, AwaitPluginMount)
    ensures O.WholeAt(Apply(s, DoUnmount), q)
  {
    ReachableInv(s);
    assert O.RecordOwn(s, q);
    O.StepWhole(s, DoUnmount, q);
  }

  lemma UnmountedNeverOverlaps(s: Root, q: nat, t: Root, a: Action, r: nat)
    requires Reachable(s) && Unmounts(s, q) && !At(s, q, AwaitPluginMount)
    requires Leads(Apply(s, DoUnmount), t)
    ensures !OverlapsAt(t, a, r, q)
  {
    var s0 := Step(s, DoUnmount);
    UnmountedWhole(s, q);
    DisposeAndMountSupersede(s, true, Importing, q);
    var actions :| Run(s0, actions, t);
    SupersededRun(s0, actions, t, q);
    ReachableInv(s0);
    UninterruptedWhole(s0, actions, t, q);
    LeadsReachable(s0, t);
    if OverlapsAt(t, a, r, q) {
      WholeSettled(t, a, r, q);
    }
  }

  // What an unmount tears down can still be cleaning up when a later plugin.mount is called, if and only if
  // the unmount found plugin.mount of it pending.
  lemma UnmountMayOverlapIff(s: Root, q: nat)
    requires Reachable(s) && Unmounts(s, q)
    ensures MayOverlap(Apply(s, DoUnmount), q) <==> At(s, q, AwaitPluginMount)
  {
    if At(s, q, AwaitPluginMount) {
      ReachableInv(s);
      InterruptedMountMayOverlap(s, q);
    } else {
      forall t, a, r: nat | Leads(Apply(s, DoUnmount), t) ensures !OverlapsAt(t, a, r, q) {
        UnmountedNeverOverlaps(s, q, t, a, r);
      }
    }
  }
}
