// Request-scope cancellation and cleanup (pliego-data, context.rs and cancellation.rs).
//
// Shared is what the atomics, the mutexes and the Notify hold; each operation on it is one atomic step.
// Every call of cancel, close, register_cleanup or cancelled().await is a thread that performs such steps;
// a run interleaves any number of them in any order.
module RequestScope {
  import opened Prelude

  datatype Reason =
    | ClientDisconnect | Deadline | Shutdown | ApplicationAbort | RequestBodyLimit | ResponseBodyLimit | ScopeClosed

  datatype Failure = ContextClosed | CleanupLimit

  // `pushed`, `taken` and `ran` are histories: registrations in order, the list close took, and the
  // cleanups that were run with the reason they received.
  datatype Shared = Shared(
    closed: bool,
    cancelled: bool,
    reason: Option<Reason>,
    cleanups: seq<nat>,
    maxCleanups: nat,
    notifications: nat,
    pushed: seq<nat>,
    taken: Option<seq<nat>>,
    ran: seq<(nat, Reason)>)

  // ---- Atomic operations -----------------------------------------------------------------------------

  function SetReason(s: Shared, reason: Reason): Shared {
    s.(reason := Some(FinalReason(s, reason)))
  }

  function FinalReason(s: Shared, reason: Reason): Reason {
    if s.reason.Some? then s.reason.value else reason
  }

  function SwapCancelled(s: Shared): Shared {
    s.(cancelled := true)
  }

  function SwapClosed(s: Shared): Shared {
    s.(closed := true)
  }

  function NotifyWaiters(s: Shared): Shared {
    s.(notifications := s.notifications + 1)
  }

  function TakeCleanups(s: Shared): Shared {
    s.(cleanups := [], taken := Some(s.cleanups))
  }

  function RunCleanup(s: Shared, cleanup: nat, reason: Reason): Shared {
    s.(ran := s.ran + [(cleanup, reason)])
  }

  function PushCleanup(s: Shared, cleanup: nat): Shared {
    if |s.cleanups| >= s.maxCleanups then s
    else s.(cleanups := s.cleanups + [cleanup], pushed := s.pushed + [cleanup])
  }

  // ---- Threads ---------------------------------------------------------------------------------------

  datatype Call = Cancel(reason: Reason) | Close | RegisterCleanup | Cancelled

  datatype Point =
    | CancelStart(reason: Reason) | CancelSwap | CancelNotify
    | CloseStart | CloseReason | CloseSwap(reason: Reason) | CloseNotify(reason: Reason) | CloseTake(reason: Reason)
    | CloseRun(reason: Reason, remaining: seq<nat>)
    | RegisterStart | RegisterPush
    | WaitStart | WaitCreate | WaitCheck(seen: nat) | WaitParked(seen: nat)
    | Done | Failed(failure: Failure)

  // `closer` and `notifier` are histories: the threads that won the two swaps.
  datatype Scope = Scope(shared: Shared, threads: map<nat, Point>, closer: Option<nat>, notifier: Option<nat>)

  datatype Action = Begin(thread: nat, call: Call) | Advance(thread: nat)

  function Open(maxCleanups: nat): Scope {
    Scope(Shared(false, false, None, [], maxCleanups, 0, [], None, []), map[], None, None)
  }

  function FirstPoint(call: Call): Point {
    match call
    case Cancel(reason) => CancelStart(reason)
    case Close => CloseStart
    case RegisterCleanup => RegisterStart
    case Cancelled => WaitStart
  }

  // A Notified created before notify_waiters receives it: a parked waiter is ready once the number of
  // notifications has grown beyond the one it saw at creation.
  predicate Enabled(s: Scope, a: Action) {
    match a
    case Begin(t, _) => t !in s.threads
    case Advance(t) =>
      t in s.threads && !s.threads[t].Done? && !s.threads[t].Failed?
      && (s.threads[t].WaitParked? ==> s.threads[t].seen < s.shared.notifications)
  }

  function Move(s: Scope, t: nat, shared: Shared, point: Point): Scope {
    s.(shared := shared, threads := s.threads[t := point])
  }

  function AdvanceThread(s: Scope, t: nat): Scope
    requires Enabled(s, Advance(t))
  {
    var shared := s.shared;
    match s.threads[t]
    case CancelStart(reason) => Move(s, t, SetReason(shared, reason), CancelSwap)
    case CancelSwap =>
      if shared.cancelled then Move(s, t, shared, Done)
      else Move(s, t, SwapCancelled(shared), CancelNotify).(notifier := Some(t))
    case CancelNotify => Move(s, t, NotifyWaiters(shared), Done)
    case CloseStart =>
      if shared.closed then Move(s, t, shared, Done)
      else Move(s, t, SwapClosed(shared), CloseReason).(closer := Some(t))
    case CloseReason => Move(s, t, SetReason(shared, ScopeClosed), CloseSwap(FinalReason(shared, ScopeClosed)))
    case CloseSwap(reason) =>
      if shared.cancelled then Move(s, t, shared, CloseTake(reason))
      else Move(s, t, SwapCancelled(shared), CloseNotify(reason)).(notifier := Some(t))
    case CloseNotify(reason) => Move(s, t, NotifyWaiters(shared), CloseTake(reason))
    case CloseTake(reason) => Move(s, t, TakeCleanups(shared), CloseRun(reason, shared.cleanups))
    case CloseRun(reason, remaining) =>
      if remaining == [] then Move(s, t, shared, Done)
      else
        var last := |remaining| - 1;
        Move(s, t, RunCleanup(shared, remaining[last], reason), CloseRun(reason, remaining[..last]))
    case RegisterStart => Move(s, t, shared, if shared.closed then Failed(ContextClosed) else RegisterPush)
    case RegisterPush =>
      Move(s, t, PushCleanup(shared, t), if |shared.cleanups| >= shared.maxCleanups then Failed(CleanupLimit) else Done)
    case WaitStart => Move(s, t, shared, if shared.cancelled then Done else WaitCreate)
    case WaitCreate => Move(s, t, shared, WaitCheck(shared.notifications))
    case WaitCheck(seen) => Move(s, t, shared, if shared.cancelled then Done else WaitParked(seen))
    case WaitParked(_) => Move(s, t, shared, Done)
    case Done => s
    case Failed(_) => s
  }

  function Apply(s: Scope, a: Action): Scope
    requires Enabled(s, a)
  {
    match a
    case Begin(t, call) => s.(threads := s.threads[t := FirstPoint(call)])
    case Advance(t) => AdvanceThread(s, t)
  }

  ghost predicate Run(s: Scope, actions: seq<Action>, t: Scope)
    decreases |actions|
  {
    if actions == [] then s == t
    else Enabled(s, actions[0]) && Run(Apply(s, actions[0]), actions[1..], t)
  }

  ghost predicate Reachable(s: Scope) {
    exists n: nat, actions :: Run(Open(n), actions, s)
  }

  // ---- Invariant -------------------------------------------------------------------------------------

  predicate InClosingBody(p: Point) {
    p.CloseReason? || p.CloseSwap? || p.CloseNotify? || p.CloseTake? || p.CloseRun?
  }

  predicate Notifying(p: Point) {
    p.CancelNotify? || p.CloseNotify?
  }

  // Cleanups the closing thread has taken and not run yet.
  function Remaining(p: Point): seq<nat> {
    if p.CloseRun? then p.remaining else []
  }

  function WithReason(cleanups: seq<nat>, reason: Reason): (r: seq<(nat, Reason)>)
    ensures |r| == |cleanups|
    ensures forall i :: 0 <= i < |r| ==> r[i] == (cleanups[i], reason)
  {
    if cleanups == [] then [] else [(cleanups[0], reason)] + WithReason(cleanups[1..], reason)
  }

  ghost predicate ThreadOk(s: Scope, t: nat)
    requires t in s.threads
  {
    var p := s.threads[t];
    && (InClosingBody(p) ==> s.closer == Some(t))
    && (Notifying(p) ==> s.notifier == Some(t) && s.shared.notifications == 0)
    && (p.CancelSwap? || p.CancelNotify? ==> s.shared.reason.Some?)
    && (p.CloseSwap? || p.CloseNotify? || p.CloseTake? || p.CloseRun? ==> s.shared.reason == Some(p.reason))
    && (p.CloseTake? || p.CloseNotify? || p.CloseRun? ==> s.shared.cancelled)
    && (p.WaitCheck? ==> p.seen <= s.shared.notifications)
    && (p.WaitParked? ==> p.seen == 0)
    && (p.RegisterStart? || p.RegisterPush? ==> t !in s.shared.pushed)
  }

  ghost predicate CancelOk(s: Scope) {
    && (s.shared.cancelled ==> s.shared.reason.Some?)
    && (s.shared.cancelled <==> s.notifier.Some?)
    && s.shared.notifications <= 1
    && (s.shared.notifications == 1 ==> s.shared.cancelled)
    && (s.notifier.Some? ==>
          s.notifier.value in s.threads
          && (Notifying(s.threads[s.notifier.value]) <==> s.shared.notifications == 0))
  }

  // What the closing thread and the histories agree on, before and after it has taken the list.
  ghost predicate CleanupsOk(shared: Shared, closer: Option<Point>) {
    match shared.taken
    case None =>
      && shared.cleanups == shared.pushed
      && shared.ran == []
      && (closer.Some? ==> InClosingBody(closer.value) && !closer.value.CloseRun?)
    case Some(taken) =>
      && taken + shared.cleanups == shared.pushed
      && closer.Some? && shared.reason.Some? && shared.cancelled
      && (closer.value.CloseRun? || closer.value.Done?)
      && Remaining(closer.value) <= taken
      && shared.ran == WithReason(Reverse(taken[|Remaining(closer.value)|..]), shared.reason.value)
  }

  function CloserPoint(s: Scope): Option<Point> {
    if s.closer.Some? && s.closer.value in s.threads then Some(s.threads[s.closer.value]) else None
  }

  ghost predicate CloseOk(s: Scope) {
    && (s.shared.closed <==> s.closer.Some?)
    && (s.closer.Some? ==> CloserPoint(s).Some?)
    && (s.closer.Some? ==> InClosingBody(CloserPoint(s).value) || CloserPoint(s).value.Done?)
    && CleanupsOk(s.shared, CloserPoint(s))
  }

  ghost predicate PushedOk(s: Scope) {
    && (forall i :: 0 <= i < |s.shared.pushed| ==>
          s.shared.pushed[i] in s.threads && s.threads[s.shared.pushed[i]] == Done)
    && (forall i, j :: 0 <= i < j < |s.shared.pushed| ==> s.shared.pushed[i] != s.shared.pushed[j])
  }

  ghost predicate Inv(s: Scope) {
    && (forall t :: t in s.threads ==> ThreadOk(s, t))
    && CancelOk(s)
    && CloseOk(s)
    && PushedOk(s)
  }

  lemma OpenInv(n: nat)
    ensures Inv(Open(n))
  {
  }

  lemma BeginInv(s: Scope, t: nat, call: Call)
    requires Inv(s) && Enabled(s, Begin(t, call))
    ensures Inv(Apply(s, Begin(t, call)))
  {
    var u := Apply(s, Begin(t, call));
    assert t !in s.shared.pushed;
    forall q | q in u.threads ensures ThreadOk(u, q) {
      if q != t {
        assert ThreadOk(s, q);
      }
    }
  }

  lemma ReverseLast(s: seq<nat>, k: nat)
    requires k < |s|
    ensures Reverse(s[k..]) == Reverse(s[k + 1..]) + [s[k]]
  {
    assert s[k..][1..] == s[k + 1..];
  }

  lemma WithReasonAppend(s: seq<nat>, c: nat, reason: Reason)
    ensures WithReason(s + [c], reason) == WithReason(s, reason) + [(c, reason)]
  {
  }

  lemma TakeOk(shared: Shared, reason: Reason)
    requires CleanupsOk(shared, Some(CloseTake(reason))) && shared.reason == Some(reason) && shared.cancelled
    ensures CleanupsOk(TakeCleanups(shared), Some(CloseRun(reason, shared.cleanups)))
  {
    assert shared.cleanups[|shared.cleanups|..] == [];
    assert Reverse<nat>([]) == [];
  }

  lemma RunOk(shared: Shared, reason: Reason, remaining: seq<nat>)
    requires CleanupsOk(shared, Some(CloseRun(reason, remaining))) && shared.reason == Some(reason) && remaining != []
    ensures var last := |remaining| - 1;
      CleanupsOk(RunCleanup(shared, remaining[last], reason), Some(CloseRun(reason, remaining[..last])))
  {
    var last := |remaining| - 1;
    var taken := shared.taken.value;
    ReverseLast(taken, last);
    WithReasonAppend(Reverse(taken[last + 1..]), taken[last], reason);
  }

  lemma PushOk(shared: Shared, cleanup: nat, closer: Option<Point>)
    requires CleanupsOk(shared, closer)
    ensures CleanupsOk(PushCleanup(shared, cleanup), closer)
  {
    if shared.taken.Some? {
      assert shared.taken.value + (shared.cleanups + [cleanup]) == (shared.taken.value + shared.cleanups) + [cleanup];
    }
  }

  lemma AdvanceCloseOk(s: Scope, t: nat)
    requires Inv(s) && Enabled(s, Advance(t))
    ensures CloseOk(AdvanceThread(s, t))
  {
    assert ThreadOk(s, t);
    match s.threads[t]
    case CloseTake(reason) => TakeOk(s.shared, reason);
    case CloseRun(reason, remaining) =>
      if remaining != [] {
        RunOk(s.shared, reason, remaining);
      }
    case RegisterPush =>
      RegisterPushCloseOk(s, t);
    case _ =>
  }

  lemma RegisterPushCloseOk(s: Scope, t: nat)
    requires Inv(s) && Enabled(s, Advance(t)) && s.threads[t] == RegisterPush
    ensures CloseOk(AdvanceThread(s, t))
  {
    assert ThreadOk(s, t);
    PushOk(s.shared, t, CloserPoint(s));
    assert CloserPoint(AdvanceThread(s, t)) == CloserPoint(s);
  }

  lemma OtherThreadOk(s: Scope, t: nat, q: nat)
    requires Inv(s) && Enabled(s, Advance(t)) && q in s.threads && q != t
    ensures ThreadOk(AdvanceThread(s, t), q)
  {
    hide CleanupsOk, PushedOk;
    assert ThreadOk(s, t) && ThreadOk(s, q);
    var u := AdvanceThread(s, t);
    assert u.threads[q] == s.threads[q];
    assert s.shared.reason.Some? ==> u.shared.reason == s.shared.reason;
    assert s.closer.Some? ==> u.closer == s.closer;
    assert s.notifier.Some? ==> u.notifier == s.notifier;
  }

  lemma MovedThreadOk(s: Scope, t: nat)
    requires Inv(s) && Enabled(s, Advance(t))
    ensures ThreadOk(AdvanceThread(s, t), t)
  {
    hide CleanupsOk, PushedOk;
    assert ThreadOk(s, t);
  }

  lemma AdvanceThreadsOk(s: Scope, t: nat)
    requires Inv(s) && Enabled(s, Advance(t))
    ensures forall q :: q in AdvanceThread(s, t).threads ==> ThreadOk(AdvanceThread(s, t), q)
  {
    forall q | q in AdvanceThread(s, t).threads ensures ThreadOk(AdvanceThread(s, t), q) {
      if q == t {
        MovedThreadOk(s, t);
      } else {
        OtherThreadOk(s, t, q);
      }
    }
  }

  lemma AdvancePushedOk(s: Scope, t: nat)
    requires Inv(s) && Enabled(s, Advance(t))
    ensures PushedOk(AdvanceThread(s, t))
  {
    hide CleanupsOk, CancelOk, CloseOk;
    assert ThreadOk(s, t);
    assert t !in s.shared.pushed;
  }

  lemma AdvanceCancelOk(s: Scope, t: nat)
    requires Inv(s) && Enabled(s, Advance(t))
    ensures CancelOk(AdvanceThread(s, t))
  {
    hide CleanupsOk, PushedOk;
    assert ThreadOk(s, t);
  }

  lemma AdvanceInv(s: Scope, t: nat)
    requires Inv(s) && Enabled(s, Advance(t))
    ensures Inv(AdvanceThread(s, t))
  {
    AdvanceThreadsOk(s, t);
    AdvanceCancelOk(s, t);
    AdvanceCloseOk(s, t);
    AdvancePushedOk(s, t);
  }

  lemma {:induction false} RunInv(s: Scope, actions: seq<Action>, t: Scope)
    requires Inv(s) && Run(s, actions, t)
    ensures Inv(t)
    decreases |actions|
  {
    if actions != [] {
      match actions[0] {
        case Begin(q, call) => BeginInv(s, q, call);
        case Advance(q) => AdvanceInv(s, q);
      }
      RunInv(Apply(s, actions[0]), actions[1..], t);
    }
  }

  lemma ReachableInv(s: Scope)
    requires Reachable(s)
    ensures Inv(s)
  {
    var n: nat, actions :| Run(Open(n), actions, s);
    OpenInv(n);
    RunInv(Open(n), actions, s);
  }

  // ---- Results ---------------------------------------------------------------------------------------

  // Whoever sees the flag sees a reason.
  lemma CancelledHasReason(s: Scope)
    requires Reachable(s) && s.shared.cancelled
    ensures s.shared.reason.Some?
  {
    ReachableInv(s);
  }

  // The first reason is final, and no step undoes closing or cancellation.
  lemma {:induction false} ReasonNeverChanges(s: Scope, actions: seq<Action>, t: Scope)
    requires Run(s, actions, t)
    ensures s.shared.reason.Some? ==> t.shared.reason == s.shared.reason
    ensures s.shared.cancelled ==> t.shared.cancelled
    ensures s.shared.closed ==> t.shared.closed
    decreases |actions|
  {
    if actions != [] {
      ReasonNeverChanges(Apply(s, actions[0]), actions[1..], t);
    }
  }

  // The atomic steps that record a reason: the first one is the caller's own, or that of closing; a later one
  // changes nothing.
  lemma CancelRecords(s: Scope, t: nat, reason: Reason)
    requires t in s.threads && s.threads[t] == CancelStart(reason)
    ensures Enabled(s, Advance(t))
    ensures s.shared.reason.None? ==> AdvanceThread(s, t).shared == s.shared.(reason := Some(reason))
    ensures s.shared.reason.Some? ==> AdvanceThread(s, t).shared == s.shared
  {
  }

  lemma CloseRecords(s: Scope, t: nat)
    requires t in s.threads && s.threads[t] == CloseReason
    ensures Enabled(s, Advance(t))
    ensures s.shared.reason.None? ==> AdvanceThread(s, t).shared == s.shared.(reason := Some(ScopeClosed))
    ensures s.shared.reason.Some? ==> AdvanceThread(s, t).shared == s.shared
  {
  }

  // What the first of the actions that takes the lock on the reason brings: the reason its cancel was called
  // with, or ScopeClosed.
  function FirstReason(s: Scope, actions: seq<Action>): Option<Reason>
    decreases |actions|
  {
    if actions == [] || !Enabled(s, actions[0]) then None
    else
      var first := if actions[0].Advance? then Brought(s.threads[actions[0].thread]) else None;
      if first.Some? then first else FirstReason(Apply(s, actions[0]), actions[1..])
  }

  function Brought(p: Point): Option<Reason> {
    if p.CancelStart? then Some(p.reason) else if p.CloseReason? then Some(ScopeClosed) else None
  }

  // Over every run the recorded reason is that of whichever came first: the first cancel to record one, or
  // closing.
  lemma {:induction false} FirstReasonWins(s: Scope, actions: seq<Action>, t: Scope)
    requires Run(s, actions, t)
    ensures t.shared.reason == if s.shared.reason.Some? then s.shared.reason else FirstReason(s, actions)
    decreases |actions|
  {
    if actions != [] {
      var u := Apply(s, actions[0]);
      FirstReasonWins(u, actions[1..], t);
      if s.shared.reason.Some? {
        ReasonNeverChanges(s, actions, t);
      } else {
        OneReason(s, actions[0]);
      }
    }
  }

  lemma OneReason(s: Scope, a: Action)
    requires Enabled(s, a) && s.shared.reason.None?
    ensures Apply(s, a).shared.reason == if a.Advance? then Brought(s.threads[a.thread]) else None
  {
  }

  // A cancel of a scope without a reason records the reason of the call, and closing then passes it on to
  // every cleanup.
  lemma CancelReasonIsCallers(s: Scope, t: nat, reason: Reason) returns (u: Scope)
    requires Reachable(s) && t !in s.threads && s.shared.reason.None?
    ensures Run(s, [Begin(t, Cancel(reason)), Advance(t)], u) && Reachable(u)
    ensures u.shared.reason == Some(reason)
    ensures forall actions, v :: Run(u, actions, v) ==> v.shared.reason == Some(reason)
    ensures forall actions, v, k: nat :: Run(u, actions, v) && k < |v.shared.ran| ==> v.shared.ran[k].1 == reason
  {
    var begun := Next(s, Begin(t, Cancel(reason)));
    u := Next(begun, Advance(t));
    assert Run(u, [], u);
    assert [Begin(t, Cancel(reason)), Advance(t)][1..] == [Advance(t)] && [Advance(t)][1..] == [];
    assert Run(begun, [Advance(t)], u);
    forall actions, v | Run(u, actions, v)
      ensures v.shared.reason == Some(reason)
      ensures forall k: nat :: k < |v.shared.ran| ==> v.shared.ran[k].1 == reason
    {
      ReasonNeverChanges(u, actions, v);
      ReachableRun(u, actions, v);
      RanWithReason(v, reason);
    }
  }

  lemma RanWithReason(s: Scope, reason: Reason)
    requires Reachable(s) && s.shared.reason == Some(reason)
    ensures forall k: nat :: k < |s.shared.ran| ==> s.shared.ran[k].1 == reason
  {
    CleanupsRunInReverse(s);
    if s.shared.taken.Some? {
      var all := WithReason(Reverse(s.shared.taken.value), reason);
      forall k: nat | k < |s.shared.ran| ensures s.shared.ran[k].1 == reason {
        assert s.shared.ran[k] == all[k];
      }
    }
  }

  // What a registration comes to: refused when the scope was closed at its check, or the list is full at its
  // push; appended otherwise.
  lemma RegistrationDecides(s: Scope, t: nat)
    requires t in s.threads && (s.threads[t] == RegisterStart || s.threads[t] == RegisterPush)
    ensures Enabled(s, Advance(t))
    ensures s.threads[t] == RegisterStart ==>
      && AdvanceThread(s, t).shared == s.shared
      && AdvanceThread(s, t).threads[t] == if s.shared.closed then Failed(ContextClosed) else RegisterPush
    ensures s.threads[t] == RegisterPush && |s.shared.cleanups| < s.shared.maxCleanups ==>
      && AdvanceThread(s, t).threads[t] == Done
      && AdvanceThread(s, t).shared == s.shared.(cleanups := s.shared.cleanups + [t], pushed := s.shared.pushed + [t])
    ensures s.threads[t] == RegisterPush && |s.shared.cleanups| >= s.shared.maxCleanups ==>
      AdvanceThread(s, t).threads[t] == Failed(CleanupLimit) && AdvanceThread(s, t).shared == s.shared
  {
  }

  // The closing body runs once: at most one thread is ever in it, and it is the one recorded for good.
  lemma ClosingBodyRunsOnce(s: Scope, t: nat, q: nat)
    requires Reachable(s) && t in s.threads && q in s.threads
    requires InClosingBody(s.threads[t]) && InClosingBody(s.threads[q])
    ensures t == q && s.closer == Some(t)
  {
    ReachableInv(s);
    assert ThreadOk(s, t) && ThreadOk(s, q);
  }

  lemma {:induction false} CloserNeverChanges(s: Scope, actions: seq<Action>, t: Scope)
    requires Reachable(s) && Run(s, actions, t) && s.closer.Some?
    ensures t.closer == s.closer
    decreases |actions|
  {
    if actions != [] {
      ReachableInv(s);
      ReachableStep(s, actions[0]);
      CloserNeverChanges(Apply(s, actions[0]), actions[1..], t);
    }
  }

  lemma ReachableStep(s: Scope, a: Action)
    requires Reachable(s) && Enabled(s, a)
    ensures Reachable(Apply(s, a))
  {
    var n: nat, actions :| Run(Open(n), actions, s);
    RunAppend(Open(n), actions, s, a);
  }

  lemma {:induction false} RunAppend(s: Scope, actions: seq<Action>, t: Scope, a: Action)
    requires Run(s, actions, t) && Enabled(t, a)
    ensures Run(s, actions + [a], Apply(t, a))
    decreases |actions|
  {
    if actions == [] {
      assert [a][1..] == [];
      assert Run(Apply(s, a), [], Apply(t, a));
    } else {
      RunAppend(Apply(s, actions[0]), actions[1..], t, a);
      assert (actions + [a])[1..] == actions[1..] + [a];
    }
  }

  // How often a cleanup has been run.
  function Runs(ran: seq<(nat, Reason)>, cleanup: nat): nat {
    if ran == [] then 0 else Runs(ran[1..], cleanup) + (if ran[0].0 == cleanup then 1 else 0)
  }

  lemma {:induction false} RunsWithReason(cleanups: seq<nat>, reason: Reason, cleanup: nat)
    ensures Runs(WithReason(cleanups, reason), cleanup) == Count(cleanups, cleanup)
  {
    if cleanups == [] {
    } else {
      RunsWithReason(cleanups[1..], reason, cleanup);
      CountConcat([cleanups[0]], cleanups[1..], cleanup);
      CountOne([], cleanups[0], cleanup);
      assert [] + [cleanups[0]] == [cleanups[0]] && [cleanups[0]] + cleanups[1..] == cleanups;
      assert WithReason(cleanups, reason)[1..] == WithReason(cleanups[1..], reason);
    }
  }

  lemma {:induction false} CountDistinct(s: seq<nat>, x: nat)
    requires forall i, j :: 0 <= i < j < |s| ==> s[i] != s[j]
    ensures Count(s, x) == if x in s then 1 else 0
  {
    if s != [] {
      CountDistinct(s[..|s| - 1], x);
      assert s == s[..|s| - 1] + [s[|s| - 1]];
    }
  }

  // Before close takes the list nothing has run; afterwards the cleanups it took, and only those, run in
  // reverse registration order with the final reason.
  lemma CleanupsRunInReverse(s: Scope)
    requires Reachable(s)
    ensures s.shared.taken.None? ==> s.shared.ran == []
    ensures s.shared.taken.Some? ==>
      && s.shared.reason.Some? && s.shared.taken.value <= s.shared.pushed
      && s.shared.ran <= WithReason(Reverse(s.shared.taken.value), s.shared.reason.value)
  {
    ReachableInv(s);
    if s.shared.taken.Some? {
      var taken := s.shared.taken.value;
      var k := |Remaining(CloserPoint(s).value)|;
      PartlyRun(taken, k, s.shared.reason.value);
    }
  }

  lemma PartlyRun(taken: seq<nat>, k: nat, reason: Reason)
    requires k <= |taken|
    ensures WithReason(Reverse(taken[k..]), reason) <= WithReason(Reverse(taken), reason)
  {
    assert taken == taken[..k] + taken[k..];
    ReverseConcat(taken[..k], taken[k..]);
  }

  lemma CleanupRunsAtMostOnce(s: Scope, cleanup: nat)
    requires Reachable(s)
    ensures Runs(s.shared.ran, cleanup) <= 1
  {
    ReachableInv(s);
    if s.shared.taken.Some? {
      var taken := s.shared.taken.value;
      var k := |Remaining(CloserPoint(s).value)|;
      DistinctRuns(taken[k..], s.shared.reason.value, cleanup) by {
        forall i, j | 0 <= i < j < |taken[k..]| ensures taken[k..][i] != taken[k..][j] {
          assert taken[k..][i] == s.shared.pushed[k + i] && taken[k..][j] == s.shared.pushed[k + j];
        }
      }
    }
  }

  lemma DistinctRuns(cleanups: seq<nat>, reason: Reason, cleanup: nat)
    requires forall i, j :: 0 <= i < j < |cleanups| ==> cleanups[i] != cleanups[j]
    ensures Runs(WithReason(Reverse(cleanups), reason), cleanup) == if cleanup in cleanups then 1 else 0
  {
    RunsWithReason(Reverse(cleanups), reason, cleanup);
    CountReverse(cleanups, cleanup);
    CountDistinct(cleanups, cleanup);
  }

  lemma DistinctSplit(a: seq<nat>, b: seq<nat>, x: nat)
    requires forall i, j :: 0 <= i < j < |a + b| ==> (a + b)[i] != (a + b)[j]
    requires x in b
    ensures x !in a
  {
    var j :| 0 <= j < |b| && b[j] == x;
    assert (a + b)[|a| + j] == x;
    forall i | 0 <= i < |a| ensures a[i] != x {
      assert (a + b)[i] == a[i];
    }
  }

  lemma {:induction false} ReverseConcat(a: seq<nat>, b: seq<nat>)
    ensures Reverse(a + b) == Reverse(b) + Reverse(a)
  {
    if a == [] {
      assert a + b == b;
    } else {
      ReverseConcat(a[1..], b);
      assert (a + b)[1..] == a[1..] + b;
    }
  }

  // Once the closing call has returned, a registered cleanup has run exactly once if it was pushed before
  // the list was taken, and never otherwise.
  lemma CleanupRunsIffTaken(s: Scope, cleanup: nat)
    requires Reachable(s) && s.closer.Some? && s.closer.value in s.threads && s.threads[s.closer.value].Done?
    ensures s.shared.taken.Some? && s.shared.reason.Some?
    ensures s.shared.ran == WithReason(Reverse(s.shared.taken.value), s.shared.reason.value)
    ensures s.shared.taken.value + s.shared.cleanups == s.shared.pushed
    ensures Runs(s.shared.ran, cleanup) == (if cleanup in s.shared.taken.value then 1 else 0)
    ensures cleanup in s.shared.cleanups ==> Runs(s.shared.ran, cleanup) == 0
  {
    ReachableInv(s);
    var taken := s.shared.taken.value;
    assert taken[0..] == taken;
    DistinctRuns(taken, s.shared.reason.value, cleanup) by {
      forall i, j | 0 <= i < j < |taken| ensures taken[i] != taken[j] {
        assert taken[i] == s.shared.pushed[i] && taken[j] == s.shared.pushed[j];
      }
    }
    if cleanup in s.shared.cleanups {
      DistinctSplit(taken, s.shared.cleanups, cleanup);
    }
  }

  // Registrations are only ever added, and the list that close took is final.
  ghost predicate Grows(s: Shared, t: Shared) {
    && s.pushed <= t.pushed
    && (s.taken.Some? ==> t.taken == s.taken)
    && (s.taken.None? && t.taken.Some? ==> s.pushed <= t.taken.value)
  }

  lemma AdvanceGrows(s: Scope, t: nat)
    requires Inv(s) && Enabled(s, Advance(t))
    ensures Grows(s.shared, AdvanceThread(s, t).shared)
  {
    assert ThreadOk(s, t);
  }

  lemma {:induction false} RunGrows(s: Scope, actions: seq<Action>, t: Scope)
    requires Reachable(s) && Run(s, actions, t)
    ensures Grows(s.shared, t.shared)
    decreases |actions|
  {
    if actions != [] {
      ReachableInv(s);
      ReachableStep(s, actions[0]);
      var u := Apply(s, actions[0]);
      if actions[0].Advance? {
        AdvanceGrows(s, actions[0].thread);
      }
      RunGrows(u, actions[1..], t);
    }
  }

  predicate CloseReturned(s: Scope) {
    s.closer.Some? && s.closer.value in s.threads && s.threads[s.closer.value].Done?
  }

  // A cleanup that is registered while the list has not been taken, in particular while the scope is still
  // open, has run exactly once whenever close has returned, whatever else happens in between.
  lemma RegisteredInTimeRunsOnce(s: Scope, actions: seq<Action>, t: Scope, cleanup: nat)
    requires Reachable(s) && Run(s, actions, t) && CloseReturned(t)
    requires cleanup in s.shared.pushed && (!s.shared.closed || s.shared.taken.None?)
    ensures Runs(t.shared.ran, cleanup) == 1
  {
    ReachableInv(s);
    assert s.shared.taken.None?;
    RunGrows(s, actions, t);
    ReachableRun(s, actions, t);
    CleanupRunsIffTaken(t, cleanup);
    assert t.shared.taken.Some?;
    PrefixMember(s.shared.pushed, t.shared.taken.value, cleanup);
  }

  // One that is not registered when the list is taken never runs.
  lemma RegisteredLateNeverRuns(s: Scope, actions: seq<Action>, t: Scope, cleanup: nat)
    requires Reachable(s) && Run(s, actions, t)
    requires cleanup !in s.shared.pushed && s.shared.taken.Some?
    ensures Runs(t.shared.ran, cleanup) == 0
  {
    CleanupsRunInReverse(s);
    RunGrows(s, actions, t);
    ReachableRun(s, actions, t);
    ReachableInv(t);
    var taken := t.shared.taken.value;
    var run := taken[|Remaining(CloserPoint(t).value)|..];
    assert cleanup !in taken && cleanup !in run;
    NeverAmong(run, t.shared.reason.value, cleanup);
  }

  lemma PrefixMember(a: seq<nat>, b: seq<nat>, x: nat)
    requires a <= b && x in a
    ensures x in b
  {
    var i :| 0 <= i < |a| && a[i] == x;
    assert b[i] == x;
  }

  lemma NeverAmong(cleanups: seq<nat>, reason: Reason, cleanup: nat)
    requires cleanup !in cleanups
    ensures Runs(WithReason(Reverse(cleanups), reason), cleanup) == 0
  {
    RunsWithReason(Reverse(cleanups), reason, cleanup);
    CountReverse(cleanups, cleanup);
    CountMember(cleanups, cleanup);
  }

  lemma {:induction false} ReachableRun(s: Scope, actions: seq<Action>, t: Scope)
    requires Reachable(s) && Run(s, actions, t)
    ensures Reachable(t)
    decreases |actions|
  {
    if actions != [] {
      ReachableStep(s, actions[0]);
      ReachableRun(Apply(s, actions[0]), actions[1..], t);
    }
  }

  // The exact condition at the push itself: an accepted cleanup runs, once, if and only if close had not
  // taken the list yet.
  lemma AcceptedRunsIff(s: Scope, cleanup: nat, actions: seq<Action>, t: Scope)
    requires Reachable(s) && cleanup in s.threads && s.threads[cleanup] == RegisterPush
    requires AdvanceThread(s, cleanup).threads[cleanup] == Done
    requires Run(AdvanceThread(s, cleanup), actions, t) && CloseReturned(t)
    ensures Runs(t.shared.ran, cleanup) == if s.shared.taken.None? then 1 else 0
    ensures !s.shared.closed ==> s.shared.taken.None?
  {
    ReachableInv(s);
    assert ThreadOk(s, cleanup);
    ReachableStep(s, Advance(cleanup));
    var u := AdvanceThread(s, cleanup);
    if s.shared.taken.None? {
      RegisteredInTimeRunsOnce(u, actions, t, cleanup);
    } else {
      var all := [Advance(cleanup)] + actions;
      assert all[1..] == actions;
      RegisteredLateNeverRuns(s, all, t, cleanup);
    }
  }

  // register_cleanup checks the flag before it takes the lock: a registration that passed the check before
  // close may be accepted after the list was taken, and is then never run.
  lemma AcceptedCleanupMayNeverRun() returns (s: Scope)
    ensures Reachable(s) && s.threads == map[1 := Done, 0 := Done]
    ensures s.closer == Some(1) && s.shared.pushed == [0] && s.shared.ran == [] && s.shared.cleanups == [0]
  {
    s := ClosedBeforePush();
    s := Next(s, Advance(0));
  }

  lemma ClosedBeforePush() returns (s: Scope)
    ensures Reachable(s)
    ensures s == Scope(Shared(true, true, Some(ScopeClosed), [], 1, 1, [], Some([]), []),
                       map[0 := RegisterPush, 1 := Done], Some(1), Some(1))
  {
    s := CloseBeforePush();
    s := Next(s, Advance(1));
    s := Next(s, Advance(1));
    assert s.threads == map[0 := RegisterPush, 1 := Done];
  }

  lemma RegistrationPastItsCheck() returns (s: Scope)
    ensures Reachable(s)
    ensures s == Scope(Shared(false, false, None, [], 1, 0, [], None, []), map[0 := RegisterPush], None, None)
  {
    s := Open(1);
    assert Run(Open(1), [], s);
    s := Next(s, Begin(0, RegisterCleanup));
    s := Next(s, Advance(0));
    assert s.threads == map[0 := RegisterPush];
  }

  lemma CloseWithReason() returns (s: Scope)
    ensures Reachable(s)
    ensures s == Scope(Shared(true, false, Some(ScopeClosed), [], 1, 0, [], None, []),
                       map[0 := RegisterPush, 1 := CloseSwap(ScopeClosed)], Some(1), None)
  {
    s := RegistrationPastItsCheck();
    s := Next(s, Begin(1, Close));
    s := Next(s, Advance(1));
    s := Next(s, Advance(1));
    assert s.threads == map[0 := RegisterPush, 1 := CloseSwap(ScopeClosed)];
  }

  // A registration past its check, and a close that is about to take the list.
  lemma CloseBeforePush() returns (s: Scope)
    ensures Reachable(s)
    ensures s == Scope(Shared(true, true, Some(ScopeClosed), [], 1, 1, [], None, []),
                       map[0 := RegisterPush, 1 := CloseTake(ScopeClosed)], Some(1), Some(1))
  {
    s := CloseWithReason();
    s := Next(s, Advance(1));
    s := Next(s, Advance(1));
    assert s.threads == map[0 := RegisterPush, 1 := CloseTake(ScopeClosed)];
  }

  lemma Next(s: Scope, a: Action) returns (t: Scope)
    requires Reachable(s) && Enabled(s, a)
    ensures t == Apply(s, a) && Reachable(t)
  {
    t := Apply(s, a);
    ReachableStep(s, a);
  }

  // No lost wakeup: once the flag is set, a parked waiter can go on at once, or the thread that set the
  // flag has yet to notify, can do so, and the waiter can go on right after.
  lemma NoLostWakeup(s: Scope, w: nat)
    requires Reachable(s) && s.shared.cancelled && w in s.threads && s.threads[w].WaitParked?
    ensures Enabled(s, Advance(w))
      || (s.notifier.Some? && s.notifier.value in s.threads && Notifying(s.threads[s.notifier.value])
          && Enabled(s, Advance(s.notifier.value))
          && Enabled(AdvanceThread(s, s.notifier.value), Advance(w)))
  {
    ReachableInv(s);
    assert ThreadOk(s, w);
  }

  // When cancel has returned, nobody is parked for good.
  lemma NobodyParkedAfterCancel(s: Scope, w: nat)
    requires Reachable(s) && s.shared.cancelled
    requires forall t :: t in s.threads ==> !Notifying(s.threads[t])
    requires w in s.threads && s.threads[w].WaitParked?
    ensures Enabled(s, Advance(w)) && AdvanceThread(s, w).threads[w] == Done
  {
    ReachableInv(s);
    assert ThreadOk(s, w);
  }

  // A waiter only gets past its wait when the flag is set.
  lemma WaiterReturnsOnlyWhenCancelled(s: Scope, w: nat)
    requires Reachable(s) && w in s.threads && Enabled(s, Advance(w))
    requires s.threads[w].WaitStart? || s.threads[w].WaitCheck? || s.threads[w].WaitParked?
    requires AdvanceThread(s, w).threads[w] == Done
    ensures s.shared.cancelled
  {
    ReachableInv(s);
    assert ThreadOk(s, w);
  }

  // ---- The shared state and the calls on it ----------------------------------------------------------

  // DataContextInner together with its CancellationState.  Each small method is one atomic operation of
  // the machine above; Cancel, Close and RegisterCleanup are the calls, here without interference.
  class RequestContext {
    var closed: bool
    var cancelled: bool
    var cancelReason: Option<Reason>
    var cleanups: seq<nat>
    var notifications: nat
    // The loader results that are shared within the request, by key.
    var loaderCells: set<string>
    const maxCleanups: nat
    ghost var pushed: seq<nat>
    ghost var taken: Option<seq<nat>>
    ghost var ran: seq<(nat, Reason)>

    ghost function View(): Shared
      reads this
    {
      Shared(closed, cancelled, cancelReason, cleanups, maxCleanups, notifications, pushed, taken, ran)
    }

    constructor (maxCleanups: nat)
      ensures View() == Open(maxCleanups).shared && loaderCells == {}
    {
      loaderCells := {};
      closed, cancelled, cancelReason, cleanups, notifications := false, false, None, [], 0;
      this.maxCleanups := maxCleanups;
      pushed, taken, ran := [], None, [];
    }

    // DataCancellationControl::cancel.
    method CancelFlag()
      modifies this`cancelled, this`notifications
      ensures View() == if old(cancelled) then old(View()) else NotifyWaiters(SwapCancelled(old(View())))
    {
      var before := cancelled;
      cancelled := true;
      if !before {
        notifications := notifications + 1;
      }
    }

    method RecordReason(reason: Reason) returns (final: Reason)
      modifies this`cancelReason
      ensures View() == old(View()).(reason := Some(final))
      ensures final == if old(cancelReason).None? then reason else old(cancelReason).value
    {
      final := if cancelReason.Some? then cancelReason.value else reason;
      if cancelReason.None? {
        cancelReason := Some(final);
      }
    }

    method CancelScope(reason: Reason)
      modifies this`cancelReason, this`cancelled, this`notifications
      ensures cancelled
      ensures cancelReason == if old(cancelReason).None? then Some(reason) else old(cancelReason)
      ensures notifications == if old(cancelled) then old(notifications) else old(notifications) + 1
    {
      var _ := RecordReason(reason);
      CancelFlag();
    }

    method Register(cleanup: nat) returns (result: Result<(), Failure>)
      modifies this`cleanups, this`pushed
      ensures result == if closed then Err(ContextClosed)
        else if |old(cleanups)| >= maxCleanups then Err(CleanupLimit) else Ok(())
      ensures View() == if closed then old(View()) else PushCleanup(old(View()), cleanup)
    {
      if closed {
        return Err(ContextClosed);
      }
      if |cleanups| >= maxCleanups {
        return Err(CleanupLimit);
      }
      cleanups := cleanups + [cleanup];
      pushed := pushed + [cleanup];
      result := Ok(());
    }

    // The loop of close, over the list it has taken.
    method RunCleanups(list: seq<nat>, reason: Reason)
      modifies this`ran
      ensures ran == old(ran) + WithReason(Reverse(list), reason)
    {
      var remaining := list;
      assert list[|remaining|..] == [] && Reverse<nat>([]) == [];
      while remaining != []
        invariant |remaining| <= |list| && remaining == list[..|remaining|]
        invariant ran == old(ran) + WithReason(Reverse(list[|remaining|..]), reason)
        decreases |remaining|
      {
        var last := |remaining| - 1;
        ReverseLast(list, last);
        WithReasonAppend(Reverse(list[last + 1..]), list[last], reason);
        ran := ran + [(remaining[last], reason)];
        remaining := remaining[..last];
      }
      assert list[0..] == list;
    }

    // close: the first call runs every registered cleanup, the latest first, with the final reason.
    method CloseScope()
      modifies this
      ensures closed
      ensures old(closed) ==> View() == old(View()) && loaderCells == old(loaderCells)
      ensures !old(closed) ==>
        && cancelled && cancelReason == (if old(cancelReason).None? then Some(ScopeClosed) else old(cancelReason))
        && cleanups == [] && taken == Some(old(cleanups)) && pushed == old(pushed) && loaderCells == {}
        && ran == old(ran) + WithReason(Reverse(old(cleanups)), cancelReason.value)
    {
      if closed {
        return;
      }
      closed := true;
      var reason := RecordReason(ScopeClosed);
      CancelFlag();
      var list := cleanups;
      cleanups, taken := [], Some(list);
      RunCleanups(list, reason);
      loaderCells := {};
    }
  }

  function Repeat(a: Action, n: nat): seq<Action> {
    if n == 0 then [] else [a] + Repeat(a, n - 1)
  }

  function AfterLoop(s: Scope, t: nat, reason: Reason, remaining: seq<nat>): Scope {
    s.(threads := s.threads[t := Done],
       shared := s.shared.(ran := s.shared.ran + WithReason(Reverse(remaining), reason)))
  }

  lemma OneCleanupRun(s: Scope, t: nat, reason: Reason, remaining: seq<nat>)
    requires t in s.threads && s.threads[t] == CloseRun(reason, remaining) && remaining != []
    ensures AfterLoop(AdvanceThread(s, t), t, reason, remaining[..|remaining| - 1]) == AfterLoop(s, t, reason, remaining)
  {
    var last := |remaining| - 1;
    var u := AdvanceThread(s, t);
    assert Reverse(remaining) == [remaining[last]] + Reverse(remaining[..last]);
    assert WithReason(Reverse(remaining), reason)
      == [(remaining[last], reason)] + WithReason(Reverse(remaining[..last]), reason);
    assert u.threads[t := Done] == s.threads[t := Done];
  }

  // An uninterrupted closing loop of the machine does what RunCleanups does.
  lemma {:induction false} ClosingLoopAlone(s: Scope, t: nat, reason: Reason, remaining: seq<nat>)
    requires t in s.threads && s.threads[t] == CloseRun(reason, remaining)
    ensures Run(s, Repeat(Advance(t), |remaining| + 1), AfterLoop(s, t, reason, remaining))
    decreases |remaining|
  {
    var u := AdvanceThread(s, t);
    var rest := Repeat(Advance(t), |remaining|);
    assert Repeat(Advance(t), |remaining| + 1)[1..] == rest;
    if remaining == [] {
      assert WithReason(Reverse(remaining), reason) == [];
      assert u == AfterLoop(s, t, reason, remaining);
    } else {
      ClosingLoopAlone(u, t, reason, remaining[..|remaining| - 1]);
      OneCleanupRun(s, t, reason, remaining);
    }
  }
}
