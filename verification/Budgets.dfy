// Budget evaluation and runtime delivery of published variants (pliego-assets, adaptive.rs).
module Budgets {
  import opened Prelude
  import opened Sums

  datatype Tier = Universal | Lite | Balanced | Signature
  datatype Delivery = Initial | Deferred | OnDemand
  datatype FetchPriority = High | Auto | Low
  datatype MotionPolicy = Static | SuppressWhenReduced

  datatype LoadPolicy = LoadPolicy(
    tiers: set<Tier>, delivery: Delivery, preload: bool, fetchPriority: FetchPriority, motion: MotionPolicy)

  datatype PublishedVariant = PublishedVariant(
    id: string, path: string, mediaType: string, selectionGroup: Option<string>,
    bytes: u64, policy: LoadPolicy,
    estimatedDecodedBytes: u64, estimatedTriangles: u64, estimatedDrawCalls: u64)

  // The seven things a budget limits.
  datatype Dimension = InitialBytes | DeferredBytes | OnDemandBytes | DecodedBytes | Triangles | DrawCalls | Preloads

  datatype BudgetTotals = BudgetTotals(
    initialBytes: nat, deferredBytes: nat, onDemandBytes: nat, decodedBytes: nat,
    triangles: nat, drawCalls: nat, preloads: nat)
  {
    function At(d: Dimension): nat {
      match d
      case InitialBytes => initialBytes
      case DeferredBytes => deferredBytes
      case OnDemandBytes => onDemandBytes
      case DecodedBytes => decodedBytes
      case Triangles => triangles
      case DrawCalls => drawCalls
      case Preloads => preloads
    }
  }

  const NO_TOTALS := BudgetTotals(0, 0, 0, 0, 0, 0, 0)

  datatype TierBudget = TierBudget(tier: Tier, limits: BudgetTotals)
  datatype DeviceBudgetProfile = DeviceBudgetProfile(id: string, tiers: seq<TierBudget>)
  datatype BudgetResult = BudgetResult(profileId: string, tier: Tier, pass: bool, totals: BudgetTotals)

  // Where the integer type of a total ends: u32 for preloads, u64 for everything else.
  function Bound(d: Dimension): nat {
    if d == Preloads then TWO_TO_THE_32 else TWO_TO_THE_64
  }

  // What a variant contributes to a dimension.
  function Weight(v: PublishedVariant, d: Dimension): (w: nat)
    ensures w < Bound(d)
  {
    match d
    case InitialBytes => if v.policy.delivery == Initial then v.bytes else 0
    case DeferredBytes => if v.policy.delivery == Deferred then v.bytes else 0
    case OnDemandBytes => if v.policy.delivery == OnDemand then v.bytes else 0
    case DecodedBytes => v.estimatedDecodedBytes
    case Triangles => v.estimatedTriangles
    case DrawCalls => v.estimatedDrawCalls
    case Preloads => if v.policy.preload then 1 else 0
  }

  predicate Representable(t: BudgetTotals) {
    forall d: Dimension :: t.At(d) < Bound(d)
  }

  lemma SameTotals(a: BudgetTotals, b: BudgetTotals)
    requires forall d: Dimension :: a.At(d) == b.At(d)
    ensures a == b
  {
    assert a.At(InitialBytes) == b.At(InitialBytes) && a.At(DeferredBytes) == b.At(DeferredBytes);
    assert a.At(OnDemandBytes) == b.At(OnDemandBytes) && a.At(DecodedBytes) == b.At(DecodedBytes);
    assert a.At(Triangles) == b.At(Triangles) && a.At(DrawCalls) == b.At(DrawCalls) && a.At(Preloads) == b.At(Preloads);
  }

  // ---- Checked addition ------------------------------------------------------------------------------

  method Add(total: nat, value: nat, bound: nat) returns (r: Option<nat>)
    ensures r == if total + value < bound then Some(total + value) else None
  {
    return if total + value < bound then Some(total + value) else None;
  }

  // add_totals; each sum is checked, the first overflow stops.
  method AddTotals(totals: BudgetTotals, value: BudgetTotals) returns (r: Option<BudgetTotals>)
    ensures r.Some? <==> forall d: Dimension :: totals.At(d) + value.At(d) < Bound(d)
    ensures r.Some? ==> forall d: Dimension :: r.value.At(d) == totals.At(d) + value.At(d)
  {
    r := None;
    var initial := Add(totals.initialBytes, value.initialBytes, TWO_TO_THE_64);
    if initial.None? { assert !(totals.At(InitialBytes) + value.At(InitialBytes) < Bound(InitialBytes)); return; }
    var deferred := Add(totals.deferredBytes, value.deferredBytes, TWO_TO_THE_64);
    if deferred.None? { assert !(totals.At(DeferredBytes) + value.At(DeferredBytes) < Bound(DeferredBytes)); return; }
    var onDemand := Add(totals.onDemandBytes, value.onDemandBytes, TWO_TO_THE_64);
    if onDemand.None? { assert !(totals.At(OnDemandBytes) + value.At(OnDemandBytes) < Bound(OnDemandBytes)); return; }
    var decoded := Add(totals.decodedBytes, value.decodedBytes, TWO_TO_THE_64);
    if decoded.None? { assert !(totals.At(DecodedBytes) + value.At(DecodedBytes) < Bound(DecodedBytes)); return; }
    var triangles := Add(totals.triangles, value.triangles, TWO_TO_THE_64);
    if triangles.None? { assert !(totals.At(Triangles) + value.At(Triangles) < Bound(Triangles)); return; }
    var drawCalls := Add(totals.drawCalls, value.drawCalls, TWO_TO_THE_64);
    if drawCalls.None? { assert !(totals.At(DrawCalls) + value.At(DrawCalls) < Bound(DrawCalls)); return; }
    var preloads := Add(totals.preloads, value.preloads, TWO_TO_THE_32);
    if preloads.None? { assert !(totals.At(Preloads) + value.At(Preloads) < Bound(Preloads)); return; }
    r := Some(BudgetTotals(
      initial.value, deferred.value, onDemand.value, decoded.value, triangles.value, drawCalls.value, preloads.value));
  }

  // accumulate_variant adds the bytes to the one total the delivery names; adding nothing to the other two
  // cannot overflow.
  method AccumulateBytes(totals: BudgetTotals, v: PublishedVariant) returns (r: Option<BudgetTotals>)
    requires Representable(totals)
    ensures r.Some? <==>
      forall d :: d in {InitialBytes, DeferredBytes, OnDemandBytes} ==> totals.At(d) + Weight(v, d) < Bound(d)
    ensures r.Some? ==> r.value == totals.(
      initialBytes := totals.initialBytes + Weight(v, InitialBytes),
      deferredBytes := totals.deferredBytes + Weight(v, DeferredBytes),
      onDemandBytes := totals.onDemandBytes + Weight(v, OnDemandBytes))
  {
    r := None;
    assert totals.At(InitialBytes) < TWO_TO_THE_64 && totals.At(DeferredBytes) < TWO_TO_THE_64;
    assert totals.At(OnDemandBytes) < TWO_TO_THE_64;
    match v.policy.delivery {
      case Initial =>
        var sum := Add(totals.initialBytes, v.bytes, TWO_TO_THE_64);
        if sum.None? { assert !(totals.At(InitialBytes) + Weight(v, InitialBytes) < Bound(InitialBytes)); return; }
        r := Some(totals.(initialBytes := sum.value));
      case Deferred =>
        var sum := Add(totals.deferredBytes, v.bytes, TWO_TO_THE_64);
        if sum.None? { assert !(totals.At(DeferredBytes) + Weight(v, DeferredBytes) < Bound(DeferredBytes)); return; }
        r := Some(totals.(deferredBytes := sum.value));
      case OnDemand =>
        var sum := Add(totals.onDemandBytes, v.bytes, TWO_TO_THE_64);
        if sum.None? { assert !(totals.At(OnDemandBytes) + Weight(v, OnDemandBytes) < Bound(OnDemandBytes)); return; }
        r := Some(totals.(onDemandBytes := sum.value));
    }
  }

  method AccumulateVariant(totals: BudgetTotals, v: PublishedVariant) returns (r: Option<BudgetTotals>)
    requires Representable(totals)
    ensures r.Some? <==> forall d: Dimension :: totals.At(d) + Weight(v, d) < Bound(d)
    ensures r.Some? ==> forall d: Dimension :: r.value.At(d) == totals.At(d) + Weight(v, d)
  {
    r := AccumulateBytes(totals, v);
    if r.None? {
      return;
    }
    var next := r.value;
    r := None;
    var decoded := Add(totals.decodedBytes, v.estimatedDecodedBytes, TWO_TO_THE_64);
    if decoded.None? { assert !(totals.At(DecodedBytes) + Weight(v, DecodedBytes) < Bound(DecodedBytes)); return; }
    var triangles := Add(totals.triangles, v.estimatedTriangles, TWO_TO_THE_64);
    if triangles.None? { assert !(totals.At(Triangles) + Weight(v, Triangles) < Bound(Triangles)); return; }
    var drawCalls := Add(totals.drawCalls, v.estimatedDrawCalls, TWO_TO_THE_64);
    if drawCalls.None? { assert !(totals.At(DrawCalls) + Weight(v, DrawCalls) < Bound(DrawCalls)); return; }
    var preloads := Add(totals.preloads, if v.policy.preload then 1 else 0, TWO_TO_THE_32);
    if preloads.None? { assert !(totals.At(Preloads) + Weight(v, Preloads) < Bound(Preloads)); return; }
    r := Some(next.(
      decodedBytes := decoded.value, triangles := triangles.value, drawCalls := drawCalls.value, preloads := preloads.value));
  }

  // ---- The worst of a group --------------------------------------------------------------------------

  function Max(a: nat, b: nat): nat {
    if a < b then b else a
  }

  function Worst(alternatives: seq<PublishedVariant>, d: Dimension): nat {
    if alternatives == [] then 0
    else Max(Worst(alternatives[..|alternatives| - 1], d), Weight(alternatives[|alternatives| - 1], d))
  }

  function Raise(worst: BudgetTotals, v: PublishedVariant): (r: BudgetTotals)
    ensures forall d: Dimension :: r.At(d) == Max(worst.At(d), Weight(v, d))
  {
    var moved := match v.policy.delivery
      case Initial => worst.(initialBytes := Max(worst.initialBytes, v.bytes))
      case Deferred => worst.(deferredBytes := Max(worst.deferredBytes, v.bytes))
      case OnDemand => worst.(onDemandBytes := Max(worst.onDemandBytes, v.bytes));
    moved.(decodedBytes := Max(worst.decodedBytes, v.estimatedDecodedBytes),
           triangles := Max(worst.triangles, v.estimatedTriangles),
           drawCalls := Max(worst.drawCalls, v.estimatedDrawCalls),
           preloads := Max(worst.preloads, if v.policy.preload then 1 else 0))
  }

  method WorstOf(alternatives: seq<PublishedVariant>) returns (worst: BudgetTotals)
    ensures forall d: Dimension :: worst.At(d) == Worst(alternatives, d)
  {
    worst := NO_TOTALS;
    for i := 0 to |alternatives|
      invariant forall d: Dimension :: worst.At(d) == Worst(alternatives[..i], d)
    {
      assert alternatives[..i + 1][..i] == alternatives[..i];
      worst := Raise(worst, alternatives[i]);
    }
    assert alternatives[..|alternatives|] == alternatives;
  }

  // ---- The exact total of a tier ---------------------------------------------------------------------

  predicate InTier(v: PublishedVariant, tier: Tier) {
    tier in v.policy.tiers
  }

  predicate Alone(v: PublishedVariant, tier: Tier) {
    InTier(v, tier) && v.selectionGroup.None?
  }

  predicate InGroup(v: PublishedVariant, tier: Tier, group: string) {
    InTier(v, tier) && v.selectionGroup == Some(group)
  }

  function AloneTo(variants: seq<PublishedVariant>, tier: Tier, n: nat, d: Dimension): nat
    requires n <= |variants|
  {
    if n == 0 then 0
    else AloneTo(variants, tier, n - 1, d) + (if Alone(variants[n - 1], tier) then Weight(variants[n - 1], d) else 0)
  }

  function GroupTo(variants: seq<PublishedVariant>, tier: Tier, group: string, n: nat): seq<PublishedVariant>
    requires n <= |variants|
  {
    if n == 0 then []
    else GroupTo(variants, tier, group, n - 1) + (if InGroup(variants[n - 1], tier, group) then [variants[n - 1]] else [])
  }

  function GroupNames(variants: seq<PublishedVariant>, tier: Tier, n: nat): set<string>
    requires n <= |variants|
  {
    set i | 0 <= i < n && InTier(variants[i], tier) && variants[i].selectionGroup.Some? :: variants[i].selectionGroup.value
  }

  function GroupWorst(variants: seq<PublishedVariant>, tier: Tier, d: Dimension): string -> nat {
    (group: string) => Worst(GroupTo(variants, tier, group, |variants|), d)
  }

  // All ungrouped variants of the tier, and the worst alternative of every group.
  ghost function Exact(variants: seq<PublishedVariant>, tier: Tier, d: Dimension): nat {
    AloneTo(variants, tier, |variants|, d) + Sum(GroupNames(variants, tier, |variants|), GroupWorst(variants, tier, d))
  }

  lemma {:induction false} AloneGrows(variants: seq<PublishedVariant>, tier: Tier, m: nat, n: nat, d: Dimension)
    requires m <= n <= |variants|
    ensures AloneTo(variants, tier, m, d) <= AloneTo(variants, tier, n, d)
    decreases n
  {
    if m < n {
      AloneGrows(variants, tier, m, n - 1, d);
    }
  }

  ghost predicate Indexed(groups: map<string, seq<PublishedVariant>>, variants: seq<PublishedVariant>, tier: Tier, n: nat)
    requires n <= |variants|
  {
    && groups.Keys == GroupNames(variants, tier, n)
    && forall group :: group in groups ==> groups[group] == GroupTo(variants, tier, group, n)
  }

  lemma {:induction false} NoGroupYet(variants: seq<PublishedVariant>, tier: Tier, group: string, n: nat)
    requires n <= |variants| && group !in GroupNames(variants, tier, n)
    ensures GroupTo(variants, tier, group, n) == []
  {
    if n > 0 {
      NoGroupYet(variants, tier, group, n - 1);
    }
  }

  function Grouped(groups: map<string, seq<PublishedVariant>>, v: PublishedVariant, group: string)
    : map<string, seq<PublishedVariant>>
  {
    groups[group := (if group in groups then groups[group] else []) + [v]]
  }

  lemma NamesNext(variants: seq<PublishedVariant>, tier: Tier, n: nat)
    requires n < |variants|
    ensures var v := variants[n];
      GroupNames(variants, tier, n + 1) == GroupNames(variants, tier, n)
        + (if InTier(v, tier) && v.selectionGroup.Some? then {v.selectionGroup.value} else {})
  {
  }

  lemma GroupNext(variants: seq<PublishedVariant>, tier: Tier, n: nat, name: string, group: string)
    requires n < |variants| && InGroup(variants[n], tier, name)
    ensures GroupTo(variants, tier, group, n + 1)
      == GroupTo(variants, tier, group, n) + (if group == name then [variants[n]] else [])
  {
  }

  // The list of one group after the variant has been filed.
  lemma GroupedList(
    groups: map<string, seq<PublishedVariant>>, variants: seq<PublishedVariant>, tier: Tier, n: nat, name: string,
    group: string)
    requires n < |variants| && Indexed(groups, variants, tier, n) && InGroup(variants[n], tier, name)
    requires group == name || group in groups
    ensures Grouped(groups, variants[n], name)[group] == GroupTo(variants, tier, group, n + 1)
  {
    GroupNext(variants, tier, n, name, group);
    if name !in groups {
      NoGroupYet(variants, tier, name, n);
    }
    hide GroupNames, GroupTo, InGroup;
  }

  lemma GroupedNext(
    groups: map<string, seq<PublishedVariant>>, variants: seq<PublishedVariant>, tier: Tier, n: nat, name: string)
    requires n < |variants| && Indexed(groups, variants, tier, n) && InGroup(variants[n], tier, name)
    ensures Indexed(Grouped(groups, variants[n], name), variants, tier, n + 1)
  {
    var next := Grouped(groups, variants[n], name);
    NamesNext(variants, tier, n);
    assert InTier(variants[n], tier) && variants[n].selectionGroup == Some(name);
    hide GroupNames, GroupTo, InTier;
    assert next.Keys == groups.Keys + {name};
    forall group | group in next ensures next[group] == GroupTo(variants, tier, group, n + 1) {
      GroupedList(groups, variants, tier, n, name, group);
    }
  }

  lemma IndexedSkip(
    groups: map<string, seq<PublishedVariant>>, variants: seq<PublishedVariant>, tier: Tier, n: nat)
    requires n < |variants| && Indexed(groups, variants, tier, n)
    requires !InTier(variants[n], tier) || variants[n].selectionGroup.None?
    ensures Indexed(groups, variants, tier, n + 1)
  {
    NamesNext(variants, tier, n);
  }

  method CollectGroups(variants: seq<PublishedVariant>, tier: Tier)
    returns (totals: Option<BudgetTotals>, groups: map<string, seq<PublishedVariant>>)
    ensures totals.Some? <==> forall d: Dimension :: AloneTo(variants, tier, |variants|, d) < Bound(d)
    ensures totals.Some? ==> forall d: Dimension :: totals.value.At(d) == AloneTo(variants, tier, |variants|, d)
    ensures totals.Some? ==> Indexed(groups, variants, tier, |variants|)
  {
    groups := map[];
    var sum := NO_TOTALS;
    for i := 0 to |variants|
      invariant Representable(sum) && Indexed(groups, variants, tier, i)
      invariant forall d: Dimension :: sum.At(d) == AloneTo(variants, tier, i, d)
    {
      var v := variants[i];
      if !InTier(v, tier) || v.selectionGroup.None? {
        IndexedSkip(groups, variants, tier, i);
      }
      if InTier(v, tier) {
        if v.selectionGroup.Some? {
          GroupedNext(groups, variants, tier, i, v.selectionGroup.value);
          groups := Grouped(groups, v, v.selectionGroup.value);
        } else {
          var next := AccumulateVariant(sum, v);
          if next.None? {
            AloneOverflows(variants, tier, i, sum);
            return None, groups;
          }
          sum := next.value;
        }
      }
    }
    return Some(sum), groups;
  }

  lemma AloneOverflows(variants: seq<PublishedVariant>, tier: Tier, n: nat, sum: BudgetTotals)
    requires n < |variants| && Alone(variants[n], tier)
    requires forall d: Dimension :: sum.At(d) == AloneTo(variants, tier, n, d)
    requires exists d: Dimension :: sum.At(d) + Weight(variants[n], d) >= Bound(d)
    ensures exists d: Dimension :: AloneTo(variants, tier, |variants|, d) >= Bound(d)
  {
    var d: Dimension :| sum.At(d) + Weight(variants[n], d) >= Bound(d);
    AloneGrows(variants, tier, n + 1, |variants|, d);
  }

  // What the second pass has added after the groups in done.
  ghost function PartialTotal(variants: seq<PublishedVariant>, tier: Tier, done: set<string>, d: Dimension): nat {
    AloneTo(variants, tier, |variants|, d) + Sum(done, GroupWorst(variants, tier, d))
  }

  lemma PartialNext(variants: seq<PublishedVariant>, tier: Tier, done: set<string>, group: string, d: Dimension)
    requires group !in done
    ensures PartialTotal(variants, tier, done + {group}, d)
      == PartialTotal(variants, tier, done, d) + Worst(GroupTo(variants, tier, group, |variants|), d)
  {
    SumAdd(done, GroupWorst(variants, tier, d), group);
  }

  lemma PartialGrows(variants: seq<PublishedVariant>, tier: Tier, done: set<string>, d: Dimension)
    requires done <= GroupNames(variants, tier, |variants|)
    ensures PartialTotal(variants, tier, done, d) <= Exact(variants, tier, d)
  {
    SumSubset(done, GroupNames(variants, tier, |variants|), GroupWorst(variants, tier, d));
  }

  ghost predicate Overflows(variants: seq<PublishedVariant>, tier: Tier) {
    exists d: Dimension :: Exact(variants, tier, d) >= Bound(d)
  }

  method AddGroup(
    variants: seq<PublishedVariant>, tier: Tier, ghost done: set<string>, group: string,
    alternatives: seq<PublishedVariant>, sum: BudgetTotals)
    returns (next: Option<BudgetTotals>)
    requires alternatives == GroupTo(variants, tier, group, |variants|) && group !in done
    requires done + {group} <= GroupNames(variants, tier, |variants|)
    requires forall d: Dimension :: sum.At(d) == PartialTotal(variants, tier, done, d)
    ensures next.Some? ==> forall d: Dimension :: next.value.At(d) == PartialTotal(variants, tier, done + {group}, d) < Bound(d)
    ensures next.None? ==> Overflows(variants, tier)
  {
    var worst := WorstOf(alternatives);
    next := AddTotals(sum, worst);
    forall d: Dimension
      ensures PartialTotal(variants, tier, done + {group}, d) == sum.At(d) + worst.At(d)
      ensures PartialTotal(variants, tier, done + {group}, d) <= Exact(variants, tier, d)
    {
      PartialNext(variants, tier, done, group, d);
      PartialGrows(variants, tier, done + {group}, d);
    }
  }

  method EvaluateTier(variants: seq<PublishedVariant>, tier: Tier) returns (totals: Option<BudgetTotals>)
    ensures totals.None? <==> Overflows(variants, tier)
    ensures totals.Some? ==> forall d: Dimension :: totals.value.At(d) == Exact(variants, tier, d)
  {
    var alone, groups := CollectGroups(variants, tier);
    forall d: Dimension ensures PartialTotal(variants, tier, {}, d) == AloneTo(variants, tier, |variants|, d) <= Exact(variants, tier, d) {
      PartialGrows(variants, tier, {}, d);
    }
    if alone.None? {
      return None;
    }
    var sum, rest := alone.value, groups.Keys;
    while rest != {}
      invariant rest <= groups.Keys && Representable(sum)
      invariant forall d: Dimension :: sum.At(d) == PartialTotal(variants, tier, groups.Keys - rest, d)
      decreases rest
    {
      var group :| group in rest;
      var next := AddGroup(variants, tier, groups.Keys - rest, group, groups[group], sum);
      if next.None? {
        return None;
      }
      assert groups.Keys - rest + {group} == groups.Keys - (rest - {group});
      sum, rest := next.value, rest - {group};
    }
    assert groups.Keys - rest == GroupNames(variants, tier, |variants|);
    return Some(sum);
  }

  // ---- evaluate_budgets ------------------------------------------------------------------------------

  predicate WithinBudget(totals: BudgetTotals, budget: TierBudget) {
    && totals.initialBytes <= budget.limits.initialBytes
    && totals.deferredBytes <= budget.limits.deferredBytes
    && totals.onDemandBytes <= budget.limits.onDemandBytes
    && totals.decodedBytes <= budget.limits.decodedBytes
    && totals.triangles <= budget.limits.triangles
    && totals.drawCalls <= budget.limits.drawCalls
    && totals.preloads <= budget.limits.preloads
  }

  lemma WithinIff(totals: BudgetTotals, budget: TierBudget)
    ensures WithinBudget(totals, budget) <==> forall d: Dimension :: totals.At(d) <= budget.limits.At(d)
  {
    if forall d: Dimension :: totals.At(d) <= budget.limits.At(d) {
      assert totals.At(InitialBytes) <= budget.limits.At(InitialBytes);
      assert totals.At(DeferredBytes) <= budget.limits.At(DeferredBytes);
      assert totals.At(OnDemandBytes) <= budget.limits.At(OnDemandBytes);
      assert totals.At(DecodedBytes) <= budget.limits.At(DecodedBytes);
      assert totals.At(Triangles) <= budget.limits.At(Triangles);
      assert totals.At(DrawCalls) <= budget.limits.At(DrawCalls);
      assert totals.At(Preloads) <= budget.limits.At(Preloads);
    }
  }

  // The exact totals as a record.
  ghost function ExactTotals(variants: seq<PublishedVariant>, tier: Tier): (t: BudgetTotals)
    ensures forall d: Dimension :: t.At(d) == Exact(variants, tier, d)
  {
    BudgetTotals(
      Exact(variants, tier, InitialBytes), Exact(variants, tier, DeferredBytes), Exact(variants, tier, OnDemandBytes),
      Exact(variants, tier, DecodedBytes), Exact(variants, tier, Triangles), Exact(variants, tier, DrawCalls),
      Exact(variants, tier, Preloads))
  }

  ghost predicate Passes(variants: seq<PublishedVariant>, budget: TierBudget) {
    forall d: Dimension :: Exact(variants, budget.tier, d) <= budget.limits.At(d)
  }

  ghost function ResultFor(profile: DeviceBudgetProfile, budget: TierBudget, variants: seq<PublishedVariant>): BudgetResult {
    BudgetResult(profile.id, budget.tier, Passes(variants, budget), ExactTotals(variants, budget.tier))
  }

  // One result per tier of a profile, in order; and those of the profiles one after the other.
  ghost function ProfileResults(profile: DeviceBudgetProfile, n: nat, variants: seq<PublishedVariant>): seq<BudgetResult>
    requires n <= |profile.tiers|
  {
    if n == 0 then []
    else ProfileResults(profile, n - 1, variants) + [ResultFor(profile, profile.tiers[n - 1], variants)]
  }

  ghost function AllResults(profiles: seq<DeviceBudgetProfile>, n: nat, variants: seq<PublishedVariant>): seq<BudgetResult>
    requires n <= |profiles|
  {
    if n == 0 then []
    else AllResults(profiles, n - 1, variants) + ProfileResults(profiles[n - 1], |profiles[n - 1].tiers|, variants)
  }

  lemma IsResultFor(totals: BudgetTotals, profile: DeviceBudgetProfile, budget: TierBudget, variants: seq<PublishedVariant>)
    requires forall d: Dimension :: totals.At(d) == Exact(variants, budget.tier, d)
    ensures BudgetResult(profile.id, budget.tier, WithinBudget(totals, budget), totals) == ResultFor(profile, budget, variants)
  {
    SameTotals(totals, ExactTotals(variants, budget.tier));
    WithinIff(totals, budget);
  }

  method EvaluateBudget(profile: DeviceBudgetProfile, budget: TierBudget, variants: seq<PublishedVariant>)
    returns (result: Option<BudgetResult>)
    ensures result == if Overflows(variants, budget.tier) then None else Some(ResultFor(profile, budget, variants))
  {
    var totals := EvaluateTier(variants, budget.tier);
    if totals.None? {
      return None;
    }
    IsResultFor(totals.value, profile, budget, variants);
    return Some(BudgetResult(profile.id, budget.tier, WithinBudget(totals.value, budget), totals.value));
  }

  // Whether one of the first n tiers of a profile, or of the first n profiles, overflows.
  ghost predicate TierOverflows(profile: DeviceBudgetProfile, n: nat, variants: seq<PublishedVariant>)
    requires n <= |profile.tiers|
  {
    n > 0 && (TierOverflows(profile, n - 1, variants) || Overflows(variants, profile.tiers[n - 1].tier))
  }

  ghost predicate ProfileOverflows(profiles: seq<DeviceBudgetProfile>, n: nat, variants: seq<PublishedVariant>)
    requires n <= |profiles|
  {
    n > 0 && (ProfileOverflows(profiles, n - 1, variants)
              || TierOverflows(profiles[n - 1], |profiles[n - 1].tiers|, variants))
  }

  lemma {:induction false} TierOverflowsStays(profile: DeviceBudgetProfile, m: nat, n: nat, variants: seq<PublishedVariant>)
    requires m <= n <= |profile.tiers| && TierOverflows(profile, m, variants)
    ensures TierOverflows(profile, n, variants)
    decreases n
  {
    if m < n {
      TierOverflowsStays(profile, m, n - 1, variants);
    }
  }

  lemma {:induction false} ProfileOverflowsStays(
    profiles: seq<DeviceBudgetProfile>, m: nat, n: nat, variants: seq<PublishedVariant>)
    requires m <= n <= |profiles| && ProfileOverflows(profiles, m, variants)
    ensures ProfileOverflows(profiles, n, variants)
    decreases n
  {
    if m < n {
      ProfileOverflowsStays(profiles, m, n - 1, variants);
    }
  }

  method EvaluateProfile(profile: DeviceBudgetProfile, variants: seq<PublishedVariant>) returns (results: Option<seq<BudgetResult>>)
    ensures results.None? <==> TierOverflows(profile, |profile.tiers|, variants)
    ensures results.Some? ==> results.value == ProfileResults(profile, |profile.tiers|, variants)
  {
    hide Overflows, ResultFor;
    var done: seq<BudgetResult> := [];
    for j := 0 to |profile.tiers|
      invariant done == ProfileResults(profile, j, variants)
      invariant !TierOverflows(profile, j, variants)
    {
      var result := EvaluateBudget(profile, profile.tiers[j], variants);
      if result.None? {
        TierOverflowsStays(profile, j + 1, |profile.tiers|, variants);
        return None;
      }
      done := done + [result.value];
    }
    return Some(done);
  }

  method EvaluateBudgets(profiles: seq<DeviceBudgetProfile>, variants: seq<PublishedVariant>)
    returns (results: Option<seq<BudgetResult>>)
    ensures results.None? <==> ProfileOverflows(profiles, |profiles|, variants)
    ensures results.Some? ==> results.value == AllResults(profiles, |profiles|, variants)
  {
    var done: seq<BudgetResult> := [];
    for i := 0 to |profiles|
      invariant !ProfileOverflows(profiles, i, variants)
      invariant done == AllResults(profiles, i, variants)
    {
      var more := EvaluateProfile(profiles[i], variants);
      if more.None? {
        ProfileOverflowsStays(profiles, i + 1, |profiles|, variants);
        return None;
      }
      done := done + more.value;
    }
    return Some(done);
  }

  // ---- What a client may select ----------------------------------------------------------------------

  // Variants are told apart by their position: equal variants may be published twice.
  function Applicable(variants: seq<PublishedVariant>, tier: Tier): set<int> {
    set i | 0 <= i < |variants| && InTier(variants[i], tier)
  }

  function AloneAmong(variants: seq<PublishedVariant>, tier: Tier, n: nat): set<int>
    requires n <= |variants|
  {
    set i | 0 <= i < n && Alone(variants[i], tier)
  }

  function WeightAt(variants: seq<PublishedVariant>, d: Dimension): int -> nat {
    (i: int) => if 0 <= i < |variants| then Weight(variants[i], d) else 0
  }

  // Variants of the same selection group.
  predicate Alternatives(variants: seq<PublishedVariant>, i: int, j: int) {
    && 0 <= i < |variants| && 0 <= j < |variants|
    && variants[i].selectionGroup.Some? && variants[i].selectionGroup == variants[j].selectionGroup
  }

  // Applicable variants, at most one of each selection group.
  ghost predicate Choice(variants: seq<PublishedVariant>, tier: Tier, chosen: set<int>) {
    && chosen <= Applicable(variants, tier)
    && forall i, j :: i in chosen && j in chosen && Alternatives(variants, i, j) ==> i == j
  }

  // A choice that takes every ungrouped variant and one of each group.
  ghost predicate Selection(variants: seq<PublishedVariant>, tier: Tier, chosen: set<int>) {
    && Choice(variants, tier, chosen)
    && AloneAmong(variants, tier, |variants|) <= chosen
    && forall group :: group in GroupNames(variants, tier, |variants|) ==>
         exists i :: i in chosen && variants[i].selectionGroup == Some(group)
  }

  ghost function Load(variants: seq<PublishedVariant>, chosen: set<int>, d: Dimension): nat {
    Sum(chosen, WeightAt(variants, d))
  }

  lemma AloneAmongNext(variants: seq<PublishedVariant>, tier: Tier, n: nat)
    requires n < |variants|
    ensures AloneAmong(variants, tier, n + 1) == AloneAmong(variants, tier, n) + (if Alone(variants[n], tier) then {n} else {})
  {
  }

  lemma WeightIs(variants: seq<PublishedVariant>, d: Dimension, i: nat)
    requires i < |variants|
    ensures WeightAt(variants, d)(i) == Weight(variants[i], d)
  {
  }

  lemma AloneSumNext(variants: seq<PublishedVariant>, tier: Tier, n: nat, d: Dimension)
    requires n < |variants|
    ensures Sum(AloneAmong(variants, tier, n + 1), WeightAt(variants, d))
      == Sum(AloneAmong(variants, tier, n), WeightAt(variants, d))
         + (if Alone(variants[n], tier) then Weight(variants[n], d) else 0)
  {
    AloneAmongNext(variants, tier, n);
    WeightIs(variants, d, n);
    assert n !in AloneAmong(variants, tier, n);
    hide AloneAmong, Alone, Weight, WeightAt, Sum;
    if Alone(variants[n], tier) {
      SumAdd(AloneAmong(variants, tier, n), WeightAt(variants, d), n);
    } else {
      assert AloneAmong(variants, tier, n + 1) == AloneAmong(variants, tier, n);
    }
  }

  lemma {:induction false} AloneIsSum(variants: seq<PublishedVariant>, tier: Tier, n: nat, d: Dimension)
    requires n <= |variants|
    ensures AloneTo(variants, tier, n, d) == Sum(AloneAmong(variants, tier, n), WeightAt(variants, d))
  {
    if n == 0 {
      assert AloneAmong(variants, tier, n) == {};
    } else {
      hide AloneAmong, Alone, Weight, WeightAt, Sum;
      AloneIsSum(variants, tier, n - 1, d);
      AloneSumNext(variants, tier, n - 1, d);
    }
  }

  lemma {:induction false} WorstBounds(variants: seq<PublishedVariant>, tier: Tier, group: string, n: nat, i: nat, d: Dimension)
    requires i < n <= |variants| && InGroup(variants[i], tier, group)
    ensures Weight(variants[i], d) <= Worst(GroupTo(variants, tier, group, n), d)
  {
    WorstNext(variants, tier, group, n, d);
    if i < n - 1 {
      WorstBounds(variants, tier, group, n - 1, i, d);
    }
  }

  lemma WorstNext(variants: seq<PublishedVariant>, tier: Tier, group: string, n: nat, d: Dimension)
    requires 0 < n <= |variants|
    ensures Worst(GroupTo(variants, tier, group, n), d)
      == if InGroup(variants[n - 1], tier, group)
         then Max(Worst(GroupTo(variants, tier, group, n - 1), d), Weight(variants[n - 1], d))
         else Worst(GroupTo(variants, tier, group, n - 1), d)
  {
    var before := GroupTo(variants, tier, group, n - 1);
    if InGroup(variants[n - 1], tier, group) {
      assert (before + [variants[n - 1]])[..|before|] == before;
    } else {
      assert before + [] == before;
    }
  }

  lemma FirstAlternative(variants: seq<PublishedVariant>, tier: Tier, group: string, n: nat, d: Dimension)
    requires n < |variants| && group !in GroupNames(variants, tier, n) && group in GroupNames(variants, tier, n + 1)
    ensures InGroup(variants[n], tier, group)
    ensures Weight(variants[n], d) == Worst(GroupTo(variants, tier, group, n + 1), d)
  {
    NoGroupYet(variants, tier, group, n);
    WorstNext(variants, tier, group, n + 1, d);
  }

  // The alternative that is worst in a dimension.
  lemma {:induction false} WorstAttained(variants: seq<PublishedVariant>, tier: Tier, group: string, n: nat, d: Dimension)
    returns (i: nat)
    requires n <= |variants| && group in GroupNames(variants, tier, n)
    ensures i < n && InGroup(variants[i], tier, group)
    ensures Weight(variants[i], d) == Worst(GroupTo(variants, tier, group, n), d)
  {
    NoNames(variants, tier);
    hide GroupNames, GroupTo, Worst, Weight, InGroup;
    if group !in GroupNames(variants, tier, n - 1) {
      FirstAlternative(variants, tier, group, n - 1, d);
      i := n - 1;
    } else {
      WorstNext(variants, tier, group, n, d);
      i := WorstAttained(variants, tier, group, n - 1, d);
      if InGroup(variants[n - 1], tier, group)
         && Worst(GroupTo(variants, tier, group, n - 1), d) < Weight(variants[n - 1], d) {
        i := n - 1;
      }
    }
  }

  lemma NoNames(variants: seq<PublishedVariant>, tier: Tier)
    ensures GroupNames(variants, tier, 0) == {}
  {
  }

  function GroupAt(variants: seq<PublishedVariant>): int -> string {
    (i: int) => if 0 <= i < |variants| && variants[i].selectionGroup.Some? then variants[i].selectionGroup.value else ""
  }

  lemma GroupedBounded(variants: seq<PublishedVariant>, tier: Tier, grouped: set<int>, d: Dimension)
    requires Choice(variants, tier, grouped) && forall i :: i in grouped ==> variants[i].selectionGroup.Some?
    ensures Load(variants, grouped, d) <= Sum(GroupNames(variants, tier, |variants|), GroupWorst(variants, tier, d))
  {
    var names := GroupNames(variants, tier, |variants|);
    var w, worst, group := WeightAt(variants, d), GroupWorst(variants, tier, d), GroupAt(variants);
    forall i | i in grouped ensures group(i) in names && w(i) <= worst(group(i)) {
      WorstBounds(variants, tier, variants[i].selectionGroup.value, |variants|, i, d);
    }
    forall i, j | i in grouped && j in grouped && group(i) == group(j) ensures i == j {
      assert Alternatives(variants, i, j);
    }
    SumInjective(grouped, names, w, worst, group);
  }

  // No choice exceeds the exact total, in any dimension.
  lemma ChoiceBounded(variants: seq<PublishedVariant>, tier: Tier, chosen: set<int>, d: Dimension)
    requires Choice(variants, tier, chosen)
    ensures Load(variants, chosen, d) <= Exact(variants, tier, d)
  {
    var w := WeightAt(variants, d);
    var alone := set i | i in chosen && variants[i].selectionGroup.None?;
    var grouped := chosen - alone;
    assert alone + grouped == chosen;
    SumUnion(alone, grouped, w);
    SumSubset(alone, AloneAmong(variants, tier, |variants|), w);
    AloneIsSum(variants, tier, |variants|, d);
    GroupedBounded(variants, tier, grouped, d);
  }

  // In every dimension some selection reaches the exact total.
  lemma ExactAttained(variants: seq<PublishedVariant>, tier: Tier, d: Dimension) returns (chosen: set<int>)
    ensures Selection(variants, tier, chosen) && Load(variants, chosen, d) == Exact(variants, tier, d)
  {
    var worst := WorstOfEach(variants, tier, GroupNames(variants, tier, |variants|), d);
    chosen := AloneAmong(variants, tier, |variants|) + worst.Values;
    WorstIsSelection(variants, tier, worst, d);
    SumUnion(AloneAmong(variants, tier, |variants|), worst.Values, WeightAt(variants, d));
    AloneIsSum(variants, tier, |variants|, d);
    PickedReach(variants, tier, worst, d);
    ChoiceBounded(variants, tier, chosen, d);
  }

  lemma WorstIsSelection(variants: seq<PublishedVariant>, tier: Tier, worst: map<string, int>, d: Dimension)
    requires Picks(variants, tier, worst, GroupNames(variants, tier, |variants|), d)
    ensures AloneAmong(variants, tier, |variants|) !! worst.Values
    ensures Selection(variants, tier, AloneAmong(variants, tier, |variants|) + worst.Values)
  {
    var chosen := AloneAmong(variants, tier, |variants|) + worst.Values;
    forall group | group in GroupNames(variants, tier, |variants|)
      ensures exists i :: i in chosen && variants[i].selectionGroup == Some(group)
    {
      assert worst[group] in chosen;
    }
    forall i | i in worst.Values ensures 0 <= i < |variants| && InTier(variants[i], tier) && variants[i].selectionGroup.Some? {
      PickedFrom(variants, tier, worst, i, d);
    }
    forall i, j | i in chosen && j in chosen && Alternatives(variants, i, j) ensures i == j {
      PickedFrom(variants, tier, worst, i, d);
      PickedFrom(variants, tier, worst, j, d);
    }
  }

  lemma PickedFrom(variants: seq<PublishedVariant>, tier: Tier, worst: map<string, int>, i: int, d: Dimension)
    requires Picks(variants, tier, worst, GroupNames(variants, tier, |variants|), d) && i in worst.Values
    ensures 0 <= i < |variants| && InTier(variants[i], tier) && variants[i].selectionGroup.Some?
    ensures variants[i].selectionGroup.value in worst && worst[variants[i].selectionGroup.value] == i
  {
    var group :| group in worst && worst[group] == i;
    assert InGroup(variants[i], tier, group);
  }

  ghost predicate Picks(variants: seq<PublishedVariant>, tier: Tier, worst: map<string, int>, names: set<string>, d: Dimension) {
    && worst.Keys == names
    && forall group :: group in worst ==>
         && 0 <= worst[group] < |variants| && InGroup(variants[worst[group]], tier, group)
         && Weight(variants[worst[group]], d) == Worst(GroupTo(variants, tier, group, |variants|), d)
  }

  lemma {:induction false} WorstOfEach(variants: seq<PublishedVariant>, tier: Tier, names: set<string>, d: Dimension)
    returns (worst: map<string, int>)
    requires names <= GroupNames(variants, tier, |variants|)
    ensures Picks(variants, tier, worst, names, d)
    decreases names
  {
    if names == {} {
      worst := map[];
    } else {
      var group :| group in names;
      var rest := WorstOfEach(variants, tier, names - {group}, d);
      var i := WorstAttained(variants, tier, group, |variants|, d);
      worst := rest[group := i];
    }
  }

  function Pick(worst: map<string, int>): string -> int {
    (group: string) => if group in worst then worst[group] else -1
  }

  lemma PickedIsWorst(variants: seq<PublishedVariant>, tier: Tier, worst: map<string, int>, group: string, d: Dimension)
    requires Picks(variants, tier, worst, GroupNames(variants, tier, |variants|), d) && group in worst
    ensures Pick(worst)(group) in worst.Values && 0 <= Pick(worst)(group) < |variants|
    ensures variants[Pick(worst)(group)].selectionGroup == Some(group)
    ensures GroupWorst(variants, tier, d)(group) <= WeightAt(variants, d)(Pick(worst)(group))
  {
  }

  lemma PickedReach(variants: seq<PublishedVariant>, tier: Tier, worst: map<string, int>, d: Dimension)
    requires Picks(variants, tier, worst, GroupNames(variants, tier, |variants|), d)
    ensures Sum(GroupNames(variants, tier, |variants|), GroupWorst(variants, tier, d)) <= Load(variants, worst.Values, d)
  {
    var names := GroupNames(variants, tier, |variants|);
    var pick := Pick(worst);
    forall group | group in names
      ensures pick(group) in worst.Values && 0 <= pick(group) < |variants|
      ensures variants[pick(group)].selectionGroup == Some(group)
      ensures GroupWorst(variants, tier, d)(group) <= WeightAt(variants, d)(pick(group))
    {
      PickedIsWorst(variants, tier, worst, group, d);
    }
    SumInjective(names, worst.Values, GroupWorst(variants, tier, d), WeightAt(variants, d), pick);
  }

  // A tier passes exactly when every selection a client can be served stays within all seven limits.
  lemma PassesIff(variants: seq<PublishedVariant>, budget: TierBudget)
    ensures Passes(variants, budget) <==>
      forall chosen, d: Dimension :: Selection(variants, budget.tier, chosen) ==>
        Load(variants, chosen, d) <= budget.limits.At(d)
  {
    if Passes(variants, budget) {
      forall chosen, d: Dimension | Selection(variants, budget.tier, chosen)
        ensures Load(variants, chosen, d) <= budget.limits.At(d)
      {
        ChoiceBounded(variants, budget.tier, chosen, d);
      }
    } else {
      var d: Dimension :| Exact(variants, budget.tier, d) > budget.limits.At(d);
      var chosen := ExactAttained(variants, budget.tier, d);
      assert Load(variants, chosen, d) > budget.limits.At(d);
    }
  }

  // An evaluation overflows exactly when some selection's exact load does not fit its integer type.
  lemma OverflowsIff(variants: seq<PublishedVariant>, tier: Tier)
    ensures Overflows(variants, tier) <==>
      exists chosen, d: Dimension :: Selection(variants, tier, chosen) && Load(variants, chosen, d) >= Bound(d)
  {
    if Overflows(variants, tier) {
      var d: Dimension :| Exact(variants, tier, d) >= Bound(d);
      var chosen := ExactAttained(variants, tier, d);
      assert Selection(variants, tier, chosen) && Load(variants, chosen, d) >= Bound(d);
    }
    if chosen, d: Dimension :| Selection(variants, tier, chosen) && Load(variants, chosen, d) >= Bound(d) {
      ChoiceBounded(variants, tier, chosen, d);
    }
  }

  // ---- Selections, loads and results, field by field -------------------------------------------------

  // What a selection is: positions of variants offered to the tier, with every ungrouped one, and exactly one
  // of each group that offers any.
  lemma SelectionIff(variants: seq<PublishedVariant>, tier: Tier, chosen: set<int>)
    ensures Selection(variants, tier, chosen) <==>
      OffersOnly(variants, tier, chosen) && OffersAll(variants, tier, chosen) && OneOfEach(variants, chosen)
  {
    if Selection(variants, tier, chosen) {
      SelectionOffers(variants, tier, chosen);
    } else if OffersOnly(variants, tier, chosen) && OffersAll(variants, tier, chosen) && OneOfEach(variants, chosen) {
      forall group | group in GroupNames(variants, tier, |variants|)
        ensures exists i :: i in chosen && variants[i].selectionGroup == Some(group)
      {
        var i :| 0 <= i < |variants| && InTier(variants[i], tier) && variants[i].selectionGroup == Some(group);
        assert tier in variants[i].policy.tiers;
      }
      assert Choice(variants, tier, chosen);
    }
  }

  predicate OffersOnly(variants: seq<PublishedVariant>, tier: Tier, chosen: set<int>) {
    forall i :: i in chosen ==> 0 <= i < |variants| && tier in variants[i].policy.tiers
  }

  predicate OffersAll(variants: seq<PublishedVariant>, tier: Tier, chosen: set<int>)
    requires OffersOnly(variants, tier, chosen)
  {
    forall i :: 0 <= i < |variants| && tier in variants[i].policy.tiers ==>
      if variants[i].selectionGroup.None? then i in chosen
      else exists j :: j in chosen && variants[j].selectionGroup == variants[i].selectionGroup
  }

  predicate OneOfEach(variants: seq<PublishedVariant>, chosen: set<int>)
    requires forall i :: i in chosen ==> 0 <= i < |variants|
  {
    forall i, j :: i in chosen && j in chosen && i != j ==>
      variants[i].selectionGroup.None? || variants[i].selectionGroup != variants[j].selectionGroup
  }

  lemma SelectionOffers(variants: seq<PublishedVariant>, tier: Tier, chosen: set<int>)
    requires Selection(variants, tier, chosen)
    ensures OffersOnly(variants, tier, chosen) && OffersAll(variants, tier, chosen) && OneOfEach(variants, chosen)
  {
    forall i | 0 <= i < |variants| && tier in variants[i].policy.tiers
      ensures if variants[i].selectionGroup.None? then i in chosen
              else exists j :: j in chosen && variants[j].selectionGroup == variants[i].selectionGroup
    {
      if variants[i].selectionGroup.None? {
        assert Alone(variants[i], tier);
        assert i in AloneAmong(variants, tier, |variants|);
      } else {
        assert variants[i].selectionGroup.value in GroupNames(variants, tier, |variants|);
      }
    }
    forall i, j | i in chosen && j in chosen && i != j
      ensures variants[i].selectionGroup.None? || variants[i].selectionGroup != variants[j].selectionGroup
    {
      assert !Alternatives(variants, i, j);
    }
  }

  // What one more variant adds to a load: its bytes to the one total its delivery names, its estimates to
  // theirs, and one preload when it asks for one.  An empty load is nothing.
  lemma LoadByField(variants: seq<PublishedVariant>, chosen: set<int>, i: nat)
    requires i < |variants| && i !in chosen
    ensures forall d: Dimension :: Load(variants, {}, d) == 0
    ensures var v, more := variants[i], chosen + {i};
      && Load(variants, more, InitialBytes)
           == Load(variants, chosen, InitialBytes) + (if v.policy.delivery.Initial? then v.bytes else 0)
      && Load(variants, more, DeferredBytes)
           == Load(variants, chosen, DeferredBytes) + (if v.policy.delivery.Deferred? then v.bytes else 0)
      && Load(variants, more, OnDemandBytes)
           == Load(variants, chosen, OnDemandBytes) + (if v.policy.delivery.OnDemand? then v.bytes else 0)
      && Load(variants, more, DecodedBytes) == Load(variants, chosen, DecodedBytes) + v.estimatedDecodedBytes
      && Load(variants, more, Triangles) == Load(variants, chosen, Triangles) + v.estimatedTriangles
      && Load(variants, more, DrawCalls) == Load(variants, chosen, DrawCalls) + v.estimatedDrawCalls
      && Load(variants, more, Preloads) == Load(variants, chosen, Preloads) + (if v.policy.preload then 1 else 0)
  {
    forall d: Dimension ensures Load(variants, chosen + {i}, d) == Load(variants, chosen, d) + Weight(variants[i], d) {
      SumAdd(chosen, WeightAt(variants, d), i);
    }
    hide Load;
  }

  // A budget passes exactly when no selection exceeds any of its seven limits, each in its own field.
  lemma PassesByField(variants: seq<PublishedVariant>, budget: TierBudget)
    ensures Passes(variants, budget) <==>
      forall chosen :: Selection(variants, budget.tier, chosen) ==>
        && Load(variants, chosen, InitialBytes) <= budget.limits.initialBytes
        && Load(variants, chosen, DeferredBytes) <= budget.limits.deferredBytes
        && Load(variants, chosen, OnDemandBytes) <= budget.limits.onDemandBytes
        && Load(variants, chosen, DecodedBytes) <= budget.limits.decodedBytes
        && Load(variants, chosen, Triangles) <= budget.limits.triangles
        && Load(variants, chosen, DrawCalls) <= budget.limits.drawCalls
        && Load(variants, chosen, Preloads) <= budget.limits.preloads
  {
    PassesIff(variants, budget);
    hide Passes, Selection, Load;
  }

  // What the result for a tier says.
  ghost predicate Reports(result: BudgetResult, profile: DeviceBudgetProfile, budget: TierBudget, variants: seq<PublishedVariant>) {
    && result.profileId == profile.id && result.tier == budget.tier
    && result.totals.initialBytes == Exact(variants, budget.tier, InitialBytes)
    && result.totals.deferredBytes == Exact(variants, budget.tier, DeferredBytes)
    && result.totals.onDemandBytes == Exact(variants, budget.tier, OnDemandBytes)
    && result.totals.decodedBytes == Exact(variants, budget.tier, DecodedBytes)
    && result.totals.triangles == Exact(variants, budget.tier, Triangles)
    && result.totals.drawCalls == Exact(variants, budget.tier, DrawCalls)
    && result.totals.preloads == Exact(variants, budget.tier, Preloads)
    && (result.pass <==>
          && result.totals.initialBytes <= budget.limits.initialBytes
          && result.totals.deferredBytes <= budget.limits.deferredBytes
          && result.totals.onDemandBytes <= budget.limits.onDemandBytes
          && result.totals.decodedBytes <= budget.limits.decodedBytes
          && result.totals.triangles <= budget.limits.triangles
          && result.totals.drawCalls <= budget.limits.drawCalls
          && result.totals.preloads <= budget.limits.preloads)
  }

  lemma ResultReports(profile: DeviceBudgetProfile, budget: TierBudget, variants: seq<PublishedVariant>)
    ensures Reports(ResultFor(profile, budget, variants), profile, budget, variants)
  {
    var totals := ExactTotals(variants, budget.tier);
    SameTotals(totals, ExactTotals(variants, budget.tier));
    WithinIff(totals, budget);
    hide Exact;
  }

  // The number of tiers of the first n profiles.
  function TiersBefore(profiles: seq<DeviceBudgetProfile>, n: nat): nat
    requires n <= |profiles|
  {
    if n == 0 then 0 else TiersBefore(profiles, n - 1) + |profiles[n - 1].tiers|
  }

  lemma {:induction false} ProfileReports(profile: DeviceBudgetProfile, n: nat, variants: seq<PublishedVariant>)
    requires n <= |profile.tiers|
    ensures |ProfileResults(profile, n, variants)| == n
    ensures forall j :: 0 <= j < n ==> Reports(ProfileResults(profile, n, variants)[j], profile, profile.tiers[j], variants)
  {
    hide Reports, ResultFor;
    if n > 0 {
      ProfileReports(profile, n - 1, variants);
      ResultReports(profile, profile.tiers[n - 1], variants);
    }
  }

  lemma {:induction false} ResultCount(profiles: seq<DeviceBudgetProfile>, n: nat, variants: seq<PublishedVariant>)
    requires n <= |profiles|
    ensures |AllResults(profiles, n, variants)| == TiersBefore(profiles, n)
  {
    hide Reports, ProfileResults;
    if n > 0 {
      ResultCount(profiles, n - 1, variants);
      ProfileReports(profiles[n - 1], |profiles[n - 1].tiers|, variants);
    }
  }

  // There is one result for each tier of each profile, in their order.
  lemma {:induction false} ResultsInOrder(profiles: seq<DeviceBudgetProfile>, n: nat, variants: seq<PublishedVariant>, i: nat, j: nat)
    requires i < n <= |profiles| && j < |profiles[i].tiers|
    ensures var k, results := TiersBefore(profiles, i) + j, AllResults(profiles, n, variants);
      |results| == TiersBefore(profiles, n) && k < |results| && Reports(results[k], profiles[i], profiles[i].tiers[j], variants)
  {
    hide Reports, ProfileResults;
    ResultCount(profiles, n, variants);
    ResultCount(profiles, n - 1, variants);
    if i < n - 1 {
      ResultsInOrder(profiles, n - 1, variants, i, j);
    } else {
      ProfileReports(profiles[i], |profiles[i].tiers|, variants);
    }
  }

  // An evaluation fails exactly when a total of some tier overflows: past 32 bits for the preloads, and past
  // 64 bits for everything else.
  lemma EvaluationFailsIff(profiles: seq<DeviceBudgetProfile>, variants: seq<PublishedVariant>)
    ensures ProfileOverflows(profiles, |profiles|, variants) <==>
      exists i, j :: 0 <= i < |profiles| && 0 <= j < |profiles[i].tiers| && TooLarge(variants, profiles[i].tiers[j].tier)
  {
    hide TooLarge;
    SomeProfileOverflows(profiles, |profiles|, variants);
  }

  ghost predicate TooLarge(variants: seq<PublishedVariant>, tier: Tier) {
    exists chosen :: Selection(variants, tier, chosen) && LoadTooLarge(variants, chosen)
  }

  ghost predicate LoadTooLarge(variants: seq<PublishedVariant>, chosen: set<int>) {
    || Load(variants, chosen, InitialBytes) >= 0x1_0000_0000_0000_0000
    || Load(variants, chosen, DeferredBytes) >= 0x1_0000_0000_0000_0000
    || Load(variants, chosen, OnDemandBytes) >= 0x1_0000_0000_0000_0000
    || Load(variants, chosen, DecodedBytes) >= 0x1_0000_0000_0000_0000
    || Load(variants, chosen, Triangles) >= 0x1_0000_0000_0000_0000
    || Load(variants, chosen, DrawCalls) >= 0x1_0000_0000_0000_0000
    || Load(variants, chosen, Preloads) >= 0x1_0000_0000
  }

  lemma TooLargeIff(variants: seq<PublishedVariant>, tier: Tier)
    ensures Overflows(variants, tier) <==> TooLarge(variants, tier)
  {
    OverflowsIff(variants, tier);
    hide Overflows, Selection, Load;
    forall chosen ensures LoadTooLarge(variants, chosen) <==> exists d: Dimension :: Load(variants, chosen, d) >= Bound(d) {
    }
  }

  lemma {:induction false} SomeTierOverflows(profile: DeviceBudgetProfile, n: nat, variants: seq<PublishedVariant>)
    requires n <= |profile.tiers|
    ensures TierOverflows(profile, n, variants) <==> exists j :: 0 <= j < n && TooLarge(variants, profile.tiers[j].tier)
  {
    hide TooLarge, Overflows;
    if n > 0 {
      SomeTierOverflows(profile, n - 1, variants);
      TooLargeIff(variants, profile.tiers[n - 1].tier);
    }
  }

  lemma {:induction false} SomeProfileOverflows(profiles: seq<DeviceBudgetProfile>, n: nat, variants: seq<PublishedVariant>)
    requires n <= |profiles|
    ensures ProfileOverflows(profiles, n, variants) <==>
      exists i, j :: 0 <= i < n && 0 <= j < |profiles[i].tiers| && TooLarge(variants, profiles[i].tiers[j].tier)
  {
    hide TooLarge, TierOverflows;
    if n > 0 {
      SomeProfileOverflows(profiles, n - 1, variants);
      SomeTierOverflows(profiles[n - 1], |profiles[n - 1].tiers|, variants);
    }
  }

  // ---- Delivery --------------------------------------------------------------------------------------

  datatype RuntimeConstraints = RuntimeConstraints(tier: Tier, reducedMotion: bool, saveData: bool)
  datatype LoadStrategy = Eager | Lazy | Interaction
  datatype DeliveryDirective = DeliveryDirective(
    variantId: string, path: string, mediaType: string, strategy: LoadStrategy, preload: bool, fetchPriority: FetchPriority)

  predicate Delivered(v: PublishedVariant, c: RuntimeConstraints) {
    && c.tier in v.policy.tiers
    && !(c.reducedMotion && v.policy.motion == SuppressWhenReduced)
    && (c.saveData ==> v.policy.delivery == Initial && v.policy.motion == Static)
  }

  function DirectiveFor(v: PublishedVariant): DeliveryDirective {
    var strategy := match v.policy.delivery
      case Initial => Eager
      case Deferred => Lazy
      case OnDemand => Interaction;
    DeliveryDirective(v.id, v.path, v.mediaType, strategy, v.policy.preload, v.policy.fetchPriority)
  }

  function DeliveryTo(variants: seq<PublishedVariant>, c: RuntimeConstraints, n: nat): seq<DeliveryDirective>
    requires n <= |variants|
  {
    if n == 0 then []
    else DeliveryTo(variants, c, n - 1) + (if Delivered(variants[n - 1], c) then [DirectiveFor(variants[n - 1])] else [])
  }

  // The variant each directive comes from.
  function OriginsTo(variants: seq<PublishedVariant>, c: RuntimeConstraints, n: nat): (origins: seq<int>)
    requires n <= |variants|
    ensures forall k :: 0 <= k < |origins| ==> 0 <= origins[k] < n
  {
    if n == 0 then []
    else OriginsTo(variants, c, n - 1) + (if Delivered(variants[n - 1], c) then [n - 1] else [])
  }

  lemma {:induction false} DeliveryOrigins(variants: seq<PublishedVariant>, c: RuntimeConstraints, n: nat)
    requires n <= |variants|
    ensures var directives, origins := DeliveryTo(variants, c, n), OriginsTo(variants, c, n);
      && |directives| == |origins|
      && (forall k :: 0 <= k < |origins| ==>
            directives[k] == DirectiveFor(variants[origins[k]]) && Delivered(variants[origins[k]], c))
      && (forall k, l :: 0 <= k < l < |origins| ==> origins[k] < origins[l])
      && (forall i :: 0 <= i < n && Delivered(variants[i], c) ==> i in origins)
  {
    if n > 0 {
      DeliveryOrigins(variants, c, n - 1);
    }
  }

  // A directive carries the fields of its variant, and says when to load it.
  predicate Directs(d: DeliveryDirective, v: PublishedVariant) {
    && d.variantId == v.id && d.path == v.path && d.mediaType == v.mediaType
    && d.preload == v.policy.preload && d.fetchPriority == v.policy.fetchPriority
    && (d.strategy == Eager <==> v.policy.delivery == Initial)
    && (d.strategy == Lazy <==> v.policy.delivery == Deferred)
    && (d.strategy == Interaction <==> v.policy.delivery == OnDemand)
  }

  // What a client receives, and what the directives say: the variants of its tier, under Save-Data only the
  // static initial ones, and under reduced motion only those that are static.
  lemma DeliveryFields(variants: seq<PublishedVariant>, c: RuntimeConstraints)
    ensures var directives, origins := DeliveryTo(variants, c, |variants|), OriginsTo(variants, c, |variants|);
      && |directives| == |origins|
      && (forall k :: 0 <= k < |origins| ==> Directs(directives[k], variants[origins[k]]))
      && (forall k, l :: 0 <= k < l < |origins| ==> origins[k] < origins[l])
      && (forall i :: 0 <= i < |variants| ==>
            var policy := variants[i].policy;
            i in origins <==>
              && c.tier in policy.tiers
              && (c.saveData ==> policy.delivery == Initial && policy.motion == Static)
              && (c.reducedMotion ==> policy.motion == Static))
  {
    DeliveryOrigins(variants, c, |variants|);
    hide DeliveryTo, OriginsTo;
  }

  // However a client picks from what it is delivered, at most one of each group, a passed budget holds.
  lemma DeliveryFits(variants: seq<PublishedVariant>, budget: TierBudget, c: RuntimeConstraints, picked: set<int>, d: Dimension)
    requires Passes(variants, budget) && c.tier == budget.tier
    requires picked <= set i | i in OriginsTo(variants, c, |variants|)
    requires forall i, j :: i in picked && j in picked && Alternatives(variants, i, j) ==> i == j
    ensures Load(variants, picked, d) <= budget.limits.At(d)
  {
    DeliveryOrigins(variants, c, |variants|);
    assert Choice(variants, budget.tier, picked);
    ChoiceBounded(variants, budget.tier, picked, d);
  }
}
