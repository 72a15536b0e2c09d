// One adapter lifecycle and the cleanup callbacks it owns (runtime-v1.js, cleanupLifecycle and onCleanup).
//
// A call of cleanupLifecycle takes every callback that is waiting into a new drain and chains that drain
// behind the drain it finds in cleanupState.barrier.  A drain runs its callbacks one by one; a callback may
// settle at once or later, so starting and settling it are two steps.  `order` and `late` are histories:
// the callbacks started by drains, and the callbacks run by a registration that came after the abort.
module Drains {
  import opened Prelude

  datatype Callback = UnmountHook | MountReturn | Registered(index: nat)

  datatype Drain = Drain(callbacks: seq<Callback>, previous: Option<nat>, started: nat, running: bool, byDispose: bool) {
    predicate Settled() {
      started == |callbacks| && !running
    }

    predicate Idle() {
      started == 0 && !running
    }
  }

  datatype Lifecycle = Lifecycle(
    cleanups: seq<Callback>,
    registrations: nat,
    returned: bool,
    unmountTaken: bool,
    returnedTaken: bool,
    barrier: Option<nat>,
    drains: seq<Drain>,
    order: seq<Callback>,
    late: seq<Callback>)

  const FRESH_LIFECYCLE := Lifecycle([], 0, false, false, false, None, [], [], [])

  // What the synchronous part of cleanupLifecycle collects, in the order in which it will run.
  function Waiting(l: Lifecycle): seq<Callback> {
    (if l.unmountTaken then [] else [UnmountHook])
    + (if l.returnedTaken || !l.returned then [] else [MountReturn])
    + Reverse(l.cleanups)
  }

  // cleanupLifecycle; the second component is the promise it returns, None for an already resolved one.
  function CleanupLifecycle(l: Lifecycle, byDispose: bool): (Lifecycle, Option<nat>) {
    var callbacks := Waiting(l);
    if callbacks == [] then (l, l.barrier)
    else (l.(cleanups := [],
             unmountTaken := true,
             returnedTaken := l.returnedTaken || l.returned,
             barrier := Some(|l.drains|),
             drains := l.drains + [Drain(callbacks, l.barrier, 0, false, byDispose)]),
          Some(|l.drains|))
  }

  predicate CanStart(l: Lifecycle, d: nat) {
    && d < |l.drains|
    && !l.drains[d].running
    && l.drains[d].started < |l.drains[d].callbacks|
    && (l.drains[d].previous.Some? ==>
          l.drains[d].previous.value < |l.drains| && l.drains[l.drains[d].previous.value].Settled())
  }

  function StartCallback(l: Lifecycle, d: nat): Lifecycle
    requires CanStart(l, d)
  {
    var drain := l.drains[d];
    l.(drains := l.drains[d := drain.(started := drain.started + 1, running := true)],
       order := l.order + [drain.callbacks[drain.started]])
  }

  predicate CanSettle(l: Lifecycle, d: nat) {
    d < |l.drains| && l.drains[d].running
  }

  function SettleCallback(l: Lifecycle, d: nat): Lifecycle
    requires CanSettle(l, d)
  {
    l.(drains := l.drains[d := l.drains[d].(running := false)])
  }

  // The handler that clears cleanupState.barrier once its own drain has settled.
  function ForgetDrain(l: Lifecycle, d: nat): Lifecycle {
    if l.barrier == Some(d) then l.(barrier := None) else l
  }

  function Register(l: Lifecycle, aborted: bool): Lifecycle {
    var callback := Registered(l.registrations);
    if aborted then l.(registrations := l.registrations + 1, late := l.late + [callback])
    else l.(registrations := l.registrations + 1, cleanups := l.cleanups + [callback])
  }

  function SetReturned(l: Lifecycle, isFunction: bool): Lifecycle {
    l.(returned := isFunction)
  }

  // ---- Invariant -------------------------------------------------------------------------------------

  // All callbacks taken by drains, in the order of the drains.
  function Taken(drains: seq<Drain>): seq<Callback> {
    if drains == [] then []
    else Taken(drains[..|drains| - 1]) + drains[|drains| - 1].callbacks
  }

  // The part of them that has been started.
  function StartedPart(drains: seq<Drain>): seq<Callback> {
    if drains == [] then []
    else StartedPart(drains[..|drains| - 1]) + StartedBy(drains[|drains| - 1])
  }

  function StartedBy(drain: Drain): seq<Callback> {
    if drain.started <= |drain.callbacks| then drain.callbacks[..drain.started] else []
  }

  ghost predicate Increasing(s: seq<Callback>) {
    && (forall i :: 0 <= i < |s| ==> s[i].Registered?)
    && (forall i, j :: 0 <= i < j < |s| ==> s[i].index < s[j].index)
  }

  // Hook first, then the returned cleanup, then registered callbacks, latest registration first.
  function Rank(c: Callback): int {
    match c
    case UnmountHook => -2
    case MountReturn => -1
    case Registered(_) => 0
  }

  ghost predicate Before(a: Callback, b: Callback) {
    Rank(a) < Rank(b) || (a.Registered? && b.Registered? && a.index > b.index)
  }

  ghost predicate DrainOrder(s: seq<Callback>) {
    forall i, j :: 0 <= i < j < |s| ==> Before(s[i], s[j])
  }

  // How often a callback occurs in the drains, in the waiting list and among the late registrations.
  function Copies(l: Lifecycle, c: Callback): nat {
    Count(Taken(l.drains), c) + Count(l.cleanups, c) + Count(l.late, c)
  }

  // The lifecycle comes to own the hook and the returned cleanup when they are taken, a registered
  // callback when it is registered; each of them once.
  function OwnedCopies(l: Lifecycle, c: Callback): nat {
    match c
    case UnmountHook => if l.unmountTaken then 1 else 0
    case MountReturn => if l.returnedTaken then 1 else 0
    case Registered(i) => if i < l.registrations then 1 else 0
  }

  ghost predicate Chained(drains: seq<Drain>, i: nat)
    requires i < |drains|
  {
    || (drains[i].previous == Some(i - 1) && 0 < i)
    || (drains[i].previous == None && forall j :: 0 <= j < i ==> drains[j].Settled())
  }

  ghost predicate DrainOk(drains: seq<Drain>, i: nat)
    requires i < |drains|
  {
    && drains[i].callbacks != []
    && drains[i].started <= |drains[i].callbacks|
    && (drains[i].running ==> 0 < drains[i].started)
    && Chained(drains, i)
    && DrainOrder(drains[i].callbacks)
  }

  ghost predicate Sequential(drains: seq<Drain>) {
    forall i, j :: 0 <= i < j < |drains| && !drains[i].Settled() ==> drains[j].Idle()
  }

  ghost predicate BarrierOk(l: Lifecycle) {
    match l.barrier
    case Some(b) => b + 1 == |l.drains|
    case None => forall i :: 0 <= i < |l.drains| ==> l.drains[i].Settled()
  }

  ghost predicate QueueInv(l: Lifecycle) {
    && (forall i :: 0 <= i < |l.drains| ==> DrainOk(l.drains, i))
    && Sequential(l.drains)
    && BarrierOk(l)
  }

  ghost predicate CleanupsInv(l: Lifecycle) {
    && Increasing(l.cleanups)
    && (forall i :: 0 <= i < |l.cleanups| ==> l.cleanups[i].index < l.registrations)
  }

  lemma ConservedFrame(l: Lifecycle, t: Lifecycle)
    requires Conserved(l)
    requires Taken(t.drains) == Taken(l.drains) && t.cleanups == l.cleanups && t.late == l.late
    requires t.unmountTaken == l.unmountTaken && t.returnedTaken == l.returnedTaken
    requires t.registrations == l.registrations
    ensures Conserved(t)
  {
    forall c ensures Copies(t, c) == OwnedCopies(t, c) {
      assert Copies(l, c) == OwnedCopies(l, c);
    }
  }

  // Conservation: drains, the waiting list and late registrations together hold what the lifecycle owns.
  ghost predicate Conserved(l: Lifecycle) {
    forall c :: Copies(l, c) == OwnedCopies(l, c)
  }

  ghost predicate Inv(l: Lifecycle) {
    && QueueInv(l)
    && CleanupsInv(l)
    && Conserved(l)
    && l.order == StartedPart(l.drains)
  }

  // ---- Every step keeps the invariant ----------------------------------------------------------------

  lemma {:induction false} TakenUpdate(drains: seq<Drain>, d: nat, drain: Drain)
    requires d < |drains| && drain.callbacks == drains[d].callbacks
    ensures Taken(drains[d := drain]) == Taken(drains)
  {
    var n := |drains| - 1;
    if d < n {
      TakenUpdate(drains[..n], d, drain);
      assert drains[d := drain][..n] == drains[..n][d := drain];
    } else {
      assert drains[d := drain][..n] == drains[..n];
    }
  }

  // No drain after the d-th has begun.
  ghost predicate IdleAfter(drains: seq<Drain>, d: nat) {
    forall j :: d < j < |drains| ==> drains[j].Idle()
  }

  lemma IdleLast(drains: seq<Drain>)
    requires drains != [] && drains[|drains| - 1].Idle()
    ensures StartedPart(drains) == StartedPart(drains[..|drains| - 1])
  {
    assert StartedBy(drains[|drains| - 1]) == [];
  }

  lemma IdleFront(drains: seq<Drain>, d: nat)
    requires d < |drains| - 1 && IdleAfter(drains, d)
    ensures IdleAfter(drains[..|drains| - 1], d) && drains[|drains| - 1].Idle()
    ensures StartedPart(drains) == StartedPart(drains[..|drains| - 1])
  {
    IdleLast(drains);
  }

  lemma UpdateFront(drains: seq<Drain>, d: nat, drain: Drain)
    requires d < |drains|
    ensures var n := |drains| - 1;
      drains[d := drain][..n] == if d < n then drains[..n][d := drain] else drains[..n]
  {
  }

  lemma {:induction false} StartedSame(drains: seq<Drain>, d: nat, drain: Drain)
    requires d < |drains| && StartedBy(drain) == StartedBy(drains[d])
    ensures StartedPart(drains[d := drain]) == StartedPart(drains)
  {
    UpdateFront(drains, d, drain);
    if d < |drains| - 1 {
      StartedSame(drains[..|drains| - 1], d, drain);
    }
  }

  lemma {:induction false} StartedUpdate(drains: seq<Drain>, d: nat, drain: Drain, next: Callback)
    requires d < |drains| && StartedBy(drain) == StartedBy(drains[d]) + [next] && IdleAfter(drains, d)
    ensures StartedPart(drains[d := drain]) == StartedPart(drains) + [next]
  {
    UpdateFront(drains, d, drain);
    if d < |drains| - 1 {
      IdleFront(drains, d);
      StartedUpdate(drains[..|drains| - 1], d, drain, next);
      IdleLast(drains[d := drain]);
    } else {
      ConcatRight(StartedPart(drains[..d]), StartedBy(drains[d]), [next]);
    }
  }

  lemma ConcatRight(a: seq<Callback>, b: seq<Callback>, c: seq<Callback>)
    ensures a + (b + c) == (a + b) + c
  {
  }

  lemma {:induction false} TakenAppend(drains: seq<Drain>, drain: Drain)
    ensures Taken(drains + [drain]) == Taken(drains) + drain.callbacks
    ensures StartedPart(drains + [drain]) == StartedPart(drains) + StartedBy(drain)
  {
    assert (drains + [drain])[..|drains|] == drains;
  }

  lemma WaitingOrder(l: Lifecycle)
    requires Increasing(l.cleanups)
    ensures DrainOrder(Waiting(l))
  {
    var r := Reverse(l.cleanups);
    assert forall i, j :: 0 <= i < j < |r| ==> Before(r[i], r[j]);
    var head := (if l.unmountTaken then [] else [UnmountHook])
      + (if l.returnedTaken || !l.returned then [] else [MountReturn]);
    assert Waiting(l) == head + r;
    forall i, j | 0 <= i < j < |head + r| ensures Before((head + r)[i], (head + r)[j]) {
      if j >= |head| && i >= |head| {
        assert Before(r[i - |head|], r[j - |head|]);
      }
    }
  }

  lemma CountSingle(y: Callback, c: Callback)
    ensures Count([y], c) == if y == c then 1 else 0
  {
    CountOne([], y, c);
    assert [] + [y] == [y];
  }

  lemma WaitingCount(l: Lifecycle, c: Callback)
    ensures Count(Waiting(l), c) == Count(l.cleanups, c)
      + (if c == UnmountHook && !l.unmountTaken then 1 else 0)
      + (if c == MountReturn && l.returned && !l.returnedTaken then 1 else 0)
  {
    var hook := if l.unmountTaken then [] else [UnmountHook];
    var ret := if l.returnedTaken || !l.returned then [] else [MountReturn];
    CountConcat(hook + ret, Reverse(l.cleanups), c);
    CountConcat(hook, ret, c);
    CountReverse(l.cleanups, c);
    CountSingle(UnmountHook, c);
    CountSingle(MountReturn, c);
  }

  // A drain that has settled has every earlier drain behind it.
  lemma SettledBehind(drains: seq<Drain>, d: nat)
    requires forall i :: 0 <= i < |drains| ==> DrainOk(drains, i)
    requires Sequential(drains) && d < |drains| && drains[d].Settled()
    ensures forall j :: 0 <= j <= d ==> drains[j].Settled()
  {
    assert DrainOk(drains, d);
    assert !drains[d].Idle();
  }

  lemma FreshInv()
    ensures Inv(FRESH_LIFECYCLE)
  {
  }

  lemma AppendDrainQueue(l: Lifecycle, drain: Drain)
    requires QueueInv(l)
    requires drain.callbacks != [] && drain.Idle() && drain.previous == l.barrier
    requires DrainOrder(drain.callbacks)
    ensures QueueInv(l.(drains := l.drains + [drain], barrier := Some(|l.drains|)))
  {
    var drains := l.drains + [drain];
    forall i | 0 <= i < |drains| ensures DrainOk(drains, i) {
      if i < |l.drains| {
        assert DrainOk(l.drains, i);
      }
    }
  }

  lemma CleanupLifecycleCopies(l: Lifecycle, byDispose: bool, c: Callback)
    requires Waiting(l) != []
    ensures var t := CleanupLifecycle(l, byDispose).0;
      Copies(t, c) == Copies(l, c)
        + (if c == UnmountHook && !l.unmountTaken then 1 else 0)
        + (if c == MountReturn && l.returned && !l.returnedTaken then 1 else 0)
  {
    TakenAppend(l.drains, Drain(Waiting(l), l.barrier, 0, false, byDispose));
    CountConcat(Taken(l.drains), Waiting(l), c);
    WaitingCount(l, c);
  }

  lemma CleanupLifecycleConserved(l: Lifecycle, byDispose: bool)
    requires Conserved(l) && Waiting(l) != []
    ensures Conserved(CleanupLifecycle(l, byDispose).0)
  {
    var t := CleanupLifecycle(l, byDispose).0;
    forall c ensures Copies(t, c) == OwnedCopies(t, c) {
      assert Copies(l, c) == OwnedCopies(l, c);
      CleanupLifecycleCopies(l, byDispose, c);
    }
  }

  lemma CleanupLifecycleInv(l: Lifecycle, byDispose: bool)
    requires Inv(l)
    ensures Inv(CleanupLifecycle(l, byDispose).0)
  {
    if Waiting(l) != [] {
      WaitingOrder(l);
      CleanupLifecycleConserved(l, byDispose);
      var drain := Drain(Waiting(l), l.barrier, 0, false, byDispose);
      AppendDrainQueue(l, drain);
      TakenAppend(l.drains, drain);
      var t := CleanupLifecycle(l, byDispose).0;
      var u := l.(drains := l.drains + [drain], barrier := Some(|l.drains|));
      assert t.drains == u.drains && t.barrier == u.barrier;
      assert QueueInv(t);
      assert CleanupsInv(t);
      assert t.order == StartedPart(t.drains);
    }
  }

  lemma StartCallbackQueue(l: Lifecycle, d: nat)
    requires QueueInv(l) && CanStart(l, d)
    ensures QueueInv(StartCallback(l, d))
    ensures forall j :: d < j < |l.drains| ==> l.drains[j].Idle()
  {
    assert DrainOk(l.drains, d);
    if l.drains[d].previous.Some? {
      SettledBehind(l.drains, d - 1);
    }
    assert forall j :: 0 <= j < d ==> l.drains[j].Settled();
    var t := StartCallback(l, d);
    forall i | 0 <= i < |t.drains| ensures DrainOk(t.drains, i) {
      assert DrainOk(l.drains, i);
    }
  }

  lemma StartCallbackInv(l: Lifecycle, d: nat)
    requires Inv(l) && CanStart(l, d)
    ensures Inv(StartCallback(l, d))
  {
    var drain := l.drains[d];
    var after := drain.(started := drain.started + 1, running := true);
    StartCallbackQueue(l, d);
    TakenUpdate(l.drains, d, after);
    StartedUpdate(l.drains, d, after, drain.callbacks[drain.started]);
    ConservedFrame(l, StartCallback(l, d));
  }

  lemma SettleCallbackInv(l: Lifecycle, d: nat)
    requires Inv(l) && CanSettle(l, d)
    ensures Inv(SettleCallback(l, d))
  {
    var after := l.drains[d].(running := false);
    TakenUpdate(l.drains, d, after);
    StartedSame(l.drains, d, after);
    var t := SettleCallback(l, d);
    ConservedFrame(l, t);
    forall i | 0 <= i < |t.drains| ensures DrainOk(t.drains, i) {
      assert DrainOk(l.drains, i);
    }
  }

  lemma ForgetDrainInv(l: Lifecycle, d: nat)
    requires Inv(l) && d < |l.drains| && l.drains[d].Settled()
    ensures Inv(ForgetDrain(l, d))
  {
    SettledBehind(l.drains, d);
    ConservedFrame(l, ForgetDrain(l, d));
  }

  lemma RegisterConserved(l: Lifecycle, aborted: bool)
    requires Conserved(l)
    ensures Conserved(Register(l, aborted))
  {
    var t := Register(l, aborted);
    forall c ensures Copies(t, c) == OwnedCopies(t, c) {
      assert Copies(l, c) == OwnedCopies(l, c);
      CountOne(l.late, Registered(l.registrations), c);
      CountOne(l.cleanups, Registered(l.registrations), c);
    }
  }

  lemma RegisterInv(l: Lifecycle, aborted: bool)
    requires Inv(l)
    ensures Inv(Register(l, aborted))
  {
    RegisterConserved(l, aborted);
    var t := Register(l, aborted);
    assert QueueInv(t);
    assert CleanupsInv(t);
  }

  lemma SetReturnedInv(l: Lifecycle, isFunction: bool)
    requires Inv(l)
    ensures Inv(SetReturned(l, isFunction))
  {
    ConservedFrame(l, SetReturned(l, isFunction));
  }

  // ---- What the invariant says about the callbacks ---------------------------------------------------

  // Drains start callbacks exactly in the order in which they were taken: hook, return, registered in
  // reverse within a drain, one drain after the other.  At most one started callback is unsettled.
  lemma {:induction false} StartedIsPrefix(drains: seq<Drain>)
    requires forall i :: 0 <= i < |drains| ==> DrainOk(drains, i)
    requires Sequential(drains)
    ensures StartedPart(drains) <= Taken(drains)
    ensures (forall i :: 0 <= i < |drains| ==> drains[i].Settled()) ==> StartedPart(drains) == Taken(drains)
    ensures (forall i :: 0 <= i < |drains| ==> drains[i].Idle()) ==> StartedPart(drains) == []
  {
    if drains != [] {
      var n := |drains| - 1;
      var front := drains[..n];
      forall i | 0 <= i < |front| ensures DrainOk(front, i) {
        assert DrainOk(drains, i);
      }
      StartedIsPrefix(front);
      assert DrainOk(drains, n);
      if !drains[n].Idle() {
        assert forall i :: 0 <= i < n ==> drains[i].Settled();
      } else {
        assert StartedBy(drains[n]) == [];
      }
    }
  }

  // Each callback runs at most once, whichever path took it.
  lemma AtMostOnce(l: Lifecycle, c: Callback)
    requires Inv(l)
    ensures Count(l.order, c) + Count(l.late, c) <= 1
  {
    StartedIsPrefix(l.drains);
    CountPrefix(l.order, Taken(l.drains), c);
    assert Copies(l, c) == OwnedCopies(l, c);
  }

  // A registration is never lost: it waits, has been taken, or ran when it was made; exactly one of these.
  lemma RegistrationKept(l: Lifecycle, i: nat)
    requires Inv(l) && i < l.registrations
    ensures Count(Taken(l.drains), Registered(i)) + Count(l.cleanups, Registered(i))
      + Count(l.late, Registered(i)) == 1
  {
    assert Copies(l, Registered(i)) == OwnedCopies(l, Registered(i));
  }

  ghost predicate AllSettled(l: Lifecycle) {
    forall i :: 0 <= i < |l.drains| ==> l.drains[i].Settled()
  }

  // Drained callbacks never overlap.
  lemma NeverOverlap(l: Lifecycle, d: nat, e: nat)
    requires Inv(l) && d < |l.drains| && e < |l.drains|
    requires l.drains[d].running && l.drains[e].running
    ensures d == e
    ensures l.order != [] && 0 < l.drains[d].started <= |l.drains[d].callbacks|
    ensures l.order[|l.order| - 1] == l.drains[d].callbacks[l.drains[d].started - 1]
  {
    assert DrainOk(l.drains, d) && DrainOk(l.drains, e);
    LastStarted(l.drains, d);
  }

  ghost predicate EndsWith(s: seq<Callback>, c: Callback) {
    s != [] && s[|s| - 1] == c
  }

  lemma {:induction false} LastStarted(drains: seq<Drain>, d: nat)
    requires d < |drains| && EndsWith(StartedBy(drains[d]), NewestOf(drains[d])) && IdleAfter(drains, d)
    ensures EndsWith(StartedPart(drains), NewestOf(drains[d]))
  {
    var n := |drains| - 1;
    if d < n {
      IdleFront(drains, d);
      LastStarted(drains[..n], d);
    } else {
      LastOfConcat(StartedPart(drains[..n]), StartedBy(drains[d]));
    }
  }

  // The callback a drain has started last.
  function NewestOf(drain: Drain): Callback {
    if 0 < drain.started <= |drain.callbacks| then drain.callbacks[drain.started - 1] else UnmountHook
  }

  lemma LastOfConcat(a: seq<Callback>, b: seq<Callback>)
    requires b != []
    ensures (a + b)[|a + b| - 1] == b[|b| - 1]
  {
  }

  function StepsLeft(drain: Drain): int {
    2 * (|drain.callbacks| - drain.started) + (if drain.running then 1 else 0)
  }

  // Start and settle steps that the drains still have to make.
  function Remaining(drains: seq<Drain>): int {
    if drains == [] then 0
    else Remaining(drains[..|drains| - 1]) + StepsLeft(drains[|drains| - 1])
  }

  lemma {:induction false} RemainingUpdate(drains: seq<Drain>, d: nat, drain: Drain)
    requires d < |drains|
    ensures Remaining(drains[d := drain]) - Remaining(drains) == StepsLeft(drain) - StepsLeft(drains[d])
  {
    var n := |drains| - 1;
    if d < n {
      RemainingUpdate(drains[..n], d, drain);
      assert drains[d := drain][..n] == drains[..n][d := drain];
    } else {
      assert drains[d := drain][..n] == drains[..n];
    }
  }

  lemma {:induction false} RemainingSettled(drains: seq<Drain>)
    requires forall i :: 0 <= i < |drains| ==> DrainOk(drains, i)
    ensures 0 <= Remaining(drains)
    ensures Remaining(drains) == 0 <==> forall i :: 0 <= i < |drains| ==> drains[i].Settled()
  {
    if drains != [] {
      var n := |drains| - 1;
      forall i | 0 <= i < n ensures DrainOk(drains[..n], i) {
        assert DrainOk(drains, i);
      }
      RemainingSettled(drains[..n]);
      assert DrainOk(drains, n);
      assert forall i :: 0 <= i < n ==> drains[..n][i] == drains[i];
    }
  }

  // No deadlock: while a drain is unfinished, a callback is running or the next one may start.
  lemma DrainProgress(l: Lifecycle) returns (d: nat)
    requires Inv(l) && !AllSettled(l)
    ensures CanSettle(l, d) || CanStart(l, d)
    ensures forall j :: 0 <= j < d ==> l.drains[j].Settled()
  {
    d := 0;
    while l.drains[d].Settled()
      invariant d < |l.drains|
      invariant forall j :: 0 <= j < d ==> l.drains[j].Settled()
      decreases |l.drains| - d
    {
      d := d + 1;
    }
    assert DrainOk(l.drains, d);
  }

  ghost predicate DrainStep(l: Lifecycle, u: Lifecycle) {
    exists d: nat ::
      || (CanStart(l, d) && u == StartCallback(l, d))
      || (CanSettle(l, d) && u == SettleCallback(l, d))
  }

  // l reaches t in n start and settle steps, in any order the drains allow.
  ghost predicate DrainSteps(l: Lifecycle, n: nat, t: Lifecycle)
    decreases n
  {
    if n == 0 then l == t
    else exists u :: DrainStep(l, u) && DrainSteps(u, n - 1, t)
  }

  lemma StartStep(l: Lifecycle, d: nat)
    requires Inv(l) && CanStart(l, d)
    ensures Inv(StartCallback(l, d))
    ensures Remaining(StartCallback(l, d).drains) == Remaining(l.drains) - 1
    ensures Taken(StartCallback(l, d).drains) == Taken(l.drains)
  {
    var after := l.drains[d].(started := l.drains[d].started + 1, running := true);
    StartCallbackInv(l, d);
    RemainingUpdate(l.drains, d, after);
    TakenUpdate(l.drains, d, after);
  }

  lemma SettleStep(l: Lifecycle, d: nat)
    requires Inv(l) && CanSettle(l, d)
    ensures Inv(SettleCallback(l, d))
    ensures Remaining(SettleCallback(l, d).drains) == Remaining(l.drains) - 1
    ensures Taken(SettleCallback(l, d).drains) == Taken(l.drains)
  {
    var after := l.drains[d].(running := false);
    SettleCallbackInv(l, d);
    RemainingUpdate(l.drains, d, after);
    TakenUpdate(l.drains, d, after);
  }

  lemma DrainStepOk(l: Lifecycle, u: Lifecycle)
    requires Inv(l) && DrainStep(l, u)
    ensures Inv(u) && Remaining(u.drains) == Remaining(l.drains) - 1 && Taken(u.drains) == Taken(l.drains)
  {
    var d: nat :|
      || (CanStart(l, d) && u == StartCallback(l, d))
      || (CanSettle(l, d) && u == SettleCallback(l, d));
    if CanStart(l, d) && u == StartCallback(l, d) {
      StartStep(l, d);
    } else {
      SettleStep(l, d);
    }
  }

  lemma AllSettledOrder(l: Lifecycle)
    requires Inv(l)
    ensures 0 <= Remaining(l.drains)
    ensures AllSettled(l) <==> Remaining(l.drains) == 0
    ensures AllSettled(l) ==> l.order == Taken(l.drains)
  {
    RemainingSettled(l.drains);
    StartedIsPrefix(l.drains);
  }

  lemma FirstStep(l: Lifecycle, n: nat, t: Lifecycle) returns (u: Lifecycle)
    requires Inv(l) && n > 0 && DrainSteps(l, n, t)
    ensures DrainSteps(u, n - 1, t)
    ensures Inv(u) && Remaining(u.drains) == Remaining(l.drains) - 1 && Taken(u.drains) == Taken(l.drains)
  {
    u :| DrainStep(l, u) && DrainSteps(u, n - 1, t);
    DrainStepOk(l, u);
  }

  lemma {:induction false} StepsInv(l: Lifecycle, n: nat, t: Lifecycle)
    requires Inv(l) && DrainSteps(l, n, t)
    ensures Inv(t)
    decreases n
  {
    hide Inv, Remaining, Taken, DrainStep;
    if n > 0 {
      var u := FirstStep(l, n, t);
      StepsInv(u, n - 1, t);
    }
  }

  lemma {:induction false} StepsRemaining(l: Lifecycle, n: nat, t: Lifecycle)
    requires Inv(l) && DrainSteps(l, n, t)
    ensures Remaining(t.drains) == Remaining(l.drains) - n
    decreases n
  {
    hide Inv, Remaining, Taken, DrainStep;
    if n > 0 {
      var u := FirstStep(l, n, t);
      StepsRemaining(u, n - 1, t);
    }
  }

  lemma {:induction false} StepsTaken(l: Lifecycle, n: nat, t: Lifecycle)
    requires Inv(l) && DrainSteps(l, n, t)
    ensures Taken(t.drains) == Taken(l.drains)
    decreases n
  {
    hide Inv, Remaining, Taken, DrainStep;
    if n > 0 {
      var u := FirstStep(l, n, t);
      StepsTaken(u, n - 1, t);
    }
  }

  // Provided running callbacks settle, every callback that was taken runs exactly once and in order:
  // any Remaining(l) steps of the drains finish them all, and fewer never do.
  lemma DrainsComplete(l: Lifecycle, n: nat, t: Lifecycle)
    requires Inv(l) && DrainSteps(l, n, t)
    ensures Inv(t)
    ensures n <= Remaining(l.drains)
    ensures AllSettled(t) <==> n == Remaining(l.drains)
    ensures AllSettled(t) ==> t.order == Taken(l.drains)
  {
    StepsInv(l, n, t);
    StepsRemaining(l, n, t);
    StepsTaken(l, n, t);
    AllSettledOrder(t);
  }

  lemma ExactlyOnce(l: Lifecycle, t: Lifecycle, c: Callback)
    requires Inv(l) && c in Taken(l.drains)
    requires 0 <= Remaining(l.drains) && DrainSteps(l, Remaining(l.drains), t)
    ensures Count(t.order, c) == 1
  {
    DrainsComplete(l, Remaining(l.drains), t);
    assert t.order == Taken(l.drains);
    CountMember(Taken(l.drains), c);
    AtMostOnce(t, c);
  }
}
