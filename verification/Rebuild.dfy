// The impact analysis of a rebuild (pliego-cli, development.rs).
module Rebuild {
  import opened Prelude
  import opened Text
  import opened Sorting
  import opened Namespaces
  import opened Receipts
  import opened BuildGraphs

  predicate DependenciesTouch(dependencies: SourceDependencies, changed: set<string>) {
    match dependencies
    case AllSources => changed != {}
    case Explicit(paths) => exists i :: 0 <= i < |paths| && paths[i] in changed
  }

  predicate Touched(dependencies: SourceDependencies, global: bool, changed: set<string>) {
    global || DependenciesTouch(dependencies, changed)
  }

  // ---- What explain_rebuild computes -----------------------------------------------------------------

  datatype Impact = Impact(routes: set<string>, artifacts: set<string>)

  function Members(s: seq<string>): set<string> {
    set i | 0 <= i < |s| :: s[i]
  }

  // The contribution of the first n routes, and of the first n artifacts, of a graph.
  function RouteImpact(g: BuildGraph, global: bool, changed: set<string>, n: nat): Impact
    requires n <= |g.routes|
  {
    if n == 0 then Impact({}, {})
    else
      var before, r := RouteImpact(g, global, changed, n - 1), g.routes[n - 1];
      if Touched(r.sources, global, changed) then
        Impact(before.routes + {r.route}, before.artifacts + Members(r.artifacts))
      else before
  }

  function ArtifactImpact(g: BuildGraph, global: bool, changed: set<string>, n: nat): set<string>
    requires n <= |g.artifacts|
  {
    if n == 0 then {}
    else
      var before, a := ArtifactImpact(g, global, changed, n - 1), g.artifacts[n - 1];
      if Touched(a.sources, global, changed) then before + {a.path} else before
  }

  function GraphImpact(g: BuildGraph, global: bool, changed: set<string>): Impact {
    var byRoutes := RouteImpact(g, global, changed, |g.routes|);
    Impact(byRoutes.routes, byRoutes.artifacts + ArtifactImpact(g, global, changed, |g.artifacts|))
  }

  function KnownSources(before: Option<BuildGraph>, after: BuildGraph): set<string> {
    (if before.Some? then SourceSet(before.value) else {}) + SourceSet(after)
  }

  predicate GlobalChange(before: Option<BuildGraph>, after: BuildGraph, changed: set<string>) {
    exists path :: path in changed && path !in KnownSources(before, after)
  }

  function FullImpact(before: Option<BuildGraph>, after: BuildGraph, changed: set<string>): Impact {
    var global := GlobalChange(before, after, changed);
    var now := GraphImpact(after, global, changed);
    if before.None? then now
    else
      var was := GraphImpact(before.value, global, changed);
      Impact(was.routes + now.routes, was.artifacts + now.artifacts)
  }

  method AddGraph(g: BuildGraph, global: bool, changed: set<string>, impact: Impact) returns (r: Impact)
    ensures var more := GraphImpact(g, global, changed);
      r == Impact(impact.routes + more.routes, impact.artifacts + more.artifacts)
  {
    var routes, artifacts := impact.routes, impact.artifacts;
    for i := 0 to |g.routes|
      invariant routes == impact.routes + RouteImpact(g, global, changed, i).routes
      invariant artifacts == impact.artifacts + RouteImpact(g, global, changed, i).artifacts
    {
      var route := g.routes[i];
      if Touched(route.sources, global, changed) {
        routes, artifacts := routes + {route.route}, artifacts + Members(route.artifacts);
      }
    }
    ghost var byRoutes := artifacts;
    for i := 0 to |g.artifacts|
      invariant artifacts == byRoutes + ArtifactImpact(g, global, changed, i)
    {
      var artifact := g.artifacts[i];
      if Touched(artifact.sources, global, changed) {
        artifacts := artifacts + {artifact.path};
      }
    }
    return Impact(routes, artifacts);
  }

  method HasUnknown(changed: set<string>, known: set<string>) returns (found: bool)
    ensures found <==> exists path :: path in changed && path !in known
  {
    var rest := changed;
    while rest != {}
      invariant rest <= changed && changed - rest <= known
      decreases rest
    {
      var path :| path in rest;
      if path !in known {
        return true;
      }
      rest := rest - {path};
    }
    return false;
  }

  // ---- Hashes by path --------------------------------------------------------------------------------

  function HashesTo(artifacts: seq<GraphArtifact>, n: nat): map<string, string>
    requires n <= |artifacts|
  {
    if n == 0 then map[] else HashesTo(artifacts, n - 1)[artifacts[n - 1].path := artifacts[n - 1].sha256]
  }

  function SourceHashesTo(sources: seq<GraphSource>, n: nat): map<string, string>
    requires n <= |sources|
  {
    if n == 0 then map[] else SourceHashesTo(sources, n - 1)[sources[n - 1].path := sources[n - 1].sha256]
  }

  function SourceHashes(g: BuildGraph): map<string, string> {
    SourceHashesTo(g.sources, |g.sources|)
  }

  function ArtifactHashes(g: BuildGraph): map<string, string> {
    HashesTo(g.artifacts, |g.artifacts|)
  }

  function Get(m: map<string, string>, key: string): Option<string> {
    if key in m then Some(m[key]) else None
  }

  // The keys on which two maps differ.
  function Differences(a: map<string, string>, b: map<string, string>): set<string> {
    set key | key in a.Keys + b.Keys && Get(a, key) != Get(b, key)
  }

  method CompareMaps(a: map<string, string>, b: map<string, string>) returns (keys: set<string>)
    ensures keys == Differences(a, b)
  {
    keys := {};
    var rest := a.Keys + b.Keys;
    while rest != {}
      invariant rest <= a.Keys + b.Keys
      invariant forall key :: key in keys <==> key in a.Keys + b.Keys - rest && Get(a, key) != Get(b, key)
      decreases rest
    {
      var key :| key in rest;
      if Get(a, key) != Get(b, key) {
        keys := keys + {key};
      }
      rest := rest - {key};
    }
  }

  method CollectSourceHashes(g: BuildGraph) returns (hashes: map<string, string>)
    ensures hashes == SourceHashes(g)
  {
    hashes := map[];
    for i := 0 to |g.sources|
      invariant hashes == SourceHashesTo(g.sources, i)
    {
      hashes := hashes[g.sources[i].path := g.sources[i].sha256];
    }
  }

  method CollectArtifactHashes(g: BuildGraph) returns (hashes: map<string, string>)
    ensures hashes == ArtifactHashes(g)
  {
    hashes := map[];
    for i := 0 to |g.artifacts|
      invariant hashes == HashesTo(g.artifacts, i)
    {
      hashes := hashes[g.artifacts[i].path := g.artifacts[i].sha256];
    }
  }

  function MapOf(before: Option<BuildGraph>, hashes: BuildGraph -> map<string, string>): map<string, string> {
    if before.Some? then hashes(before.value) else map[]
  }

  method ChangedSourcePaths(before: Option<BuildGraph>, after: BuildGraph) returns (changed: set<string>)
    ensures changed == Differences(MapOf(before, SourceHashes), SourceHashes(after))
  {
    var was: map<string, string> := map[];
    if before.Some? {
      was := CollectSourceHashes(before.value);
    }
    var now := CollectSourceHashes(after);
    changed := CompareMaps(was, now);
  }

  method ExplainRebuild(changed: set<string>, before: Option<BuildGraph>, after: BuildGraph)
    returns (impact: Impact, changedArtifacts: set<string>)
    ensures impact == FullImpact(before, after, changed)
    ensures changedArtifacts == Differences(MapOf(before, ArtifactHashes), ArtifactHashes(after))
  {
    var global := HasUnknown(changed, KnownSources(before, after));
    impact := Impact({}, {});
    var was: map<string, string> := map[];
    if before.Some? {
      impact := AddGraph(before.value, global, changed, impact);
      was := CollectArtifactHashes(before.value);
    }
    impact := AddGraph(after, global, changed, impact);
    var now := CollectArtifactHashes(after);
    changedArtifacts := CompareMaps(was, now);
  }

  // ---- What is affected ------------------------------------------------------------------------------

  lemma {:induction false} RouteAffected(g: BuildGraph, global: bool, changed: set<string>, n: nat, i: nat)
    requires i < n <= |g.routes| && Touched(g.routes[i].sources, global, changed)
    ensures g.routes[i].route in RouteImpact(g, global, changed, n).routes
    decreases n
  {
    if i < n - 1 {
      RouteAffected(g, global, changed, n - 1, i);
    }
  }

  lemma {:induction false} ArtifactAffected(g: BuildGraph, global: bool, changed: set<string>, n: nat, i: nat)
    requires i < n <= |g.artifacts| && Touched(g.artifacts[i].sources, global, changed)
    ensures g.artifacts[i].path in ArtifactImpact(g, global, changed, n)
    decreases n
  {
    if i < n - 1 {
      ArtifactAffected(g, global, changed, n - 1, i);
    }
  }

  // A node whose own dependencies are touched.
  predicate TouchedNode(g: BuildGraph, global: bool, changed: set<string>, path: string) {
    exists i :: 0 <= i < |g.artifacts| && g.artifacts[i].path == path && Touched(g.artifacts[i].sources, global, changed)
  }

  lemma {:induction false} ArtifactTouched(g: BuildGraph, global: bool, changed: set<string>, n: nat, path: string)
    requires n <= |g.artifacts| && path in ArtifactImpact(g, global, changed, n)
    ensures TouchedNode(g, global, changed, path)
  {
    if path in ArtifactImpact(g, global, changed, n - 1) {
      ArtifactTouched(g, global, changed, n - 1, path);
    } else {
      assert g.artifacts[n - 1].path == path;
    }
  }

  lemma {:induction false} RouteTouches(g: BuildGraph, global: bool, changed: set<string>, n: nat, path: string)
    returns (i: nat, j: nat)
    requires n <= |g.routes| && path in RouteImpact(g, global, changed, n).artifacts
    ensures i < n && Touched(g.routes[i].sources, global, changed)
    ensures j < |g.routes[i].artifacts| && g.routes[i].artifacts[j] == path
  {
    if path in RouteImpact(g, global, changed, n - 1).artifacts {
      i, j := RouteTouches(g, global, changed, n - 1, path);
    } else {
      i := n - 1;
      assert path in Members(g.routes[i].artifacts);
      j :| 0 <= j < |g.routes[i].artifacts| && g.routes[i].artifacts[j] == path;
    }
  }

  // In a valid graph going through the routes adds nothing: an artifact is affected exactly when its own
  // dependencies are touched, because a route and the artifacts it lists have the same ones.
  lemma AffectedIffTouched(parse: Parser, g: BuildGraph, global: bool, changed: set<string>, path: string)
    requires GraphOk(parse, g)
    ensures path in GraphImpact(g, global, changed).artifacts <==> TouchedNode(g, global, changed, path)
  {
    if path in RouteImpact(g, global, changed, |g.routes|).artifacts {
      var i, j := RouteTouches(g, global, changed, |g.routes|, path);
      var n := ListedNode(parse, g, i, j);
      assert g.artifacts[n].path == path;
    } else if path in ArtifactImpact(g, global, changed, |g.artifacts|) {
      ArtifactTouched(g, global, changed, |g.artifacts|, path);
    }
    if TouchedNode(g, global, changed, path) {
      var i :| 0 <= i < |g.artifacts| && g.artifacts[i].path == path && Touched(g.artifacts[i].sources, global, changed);
      ArtifactAffected(g, global, changed, |g.artifacts|, i);
    }
  }

  // Exactly what the analysis of both graphs reports: the paths whose node is touched before or after.
  lemma ReportedIff(parse: Parser, before: Option<BuildGraph>, after: BuildGraph, changed: set<string>, path: string)
    requires (before.Some? ==> GraphOk(parse, before.value)) && GraphOk(parse, after)
    ensures var global := GlobalChange(before, after, changed);
      path in FullImpact(before, after, changed).artifacts <==>
        || (before.Some? && TouchedNode(before.value, global, changed, path))
        || TouchedNode(after, global, changed, path)
  {
    var global := GlobalChange(before, after, changed);
    AffectedIffTouched(parse, after, global, changed, path);
    if before.Some? {
      AffectedIffTouched(parse, before.value, global, changed, path);
    }
  }

  lemma OnlyNode(parse: Parser, g: BuildGraph, global: bool, changed: set<string>, i: nat)
    requires GraphOk(parse, g) && i < |g.artifacts|
    ensures TouchedNode(g, global, changed, g.artifacts[i].path) <==> Touched(g.artifacts[i].sources, global, changed)
  {
    forall k | 0 <= k < |g.artifacts| && g.artifacts[k].path == g.artifacts[i].path ensures k == i {
      StrictDistinct(g.artifacts, ArtifactPath, k, i);
    }
  }

  // So a rebuilt artifact, changed or not, is missed exactly when every reported source is a known one and is
  // in neither the dependency list it had before nor the one it has now.
  lemma MissedIff(parse: Parser, before: BuildGraph, after: BuildGraph, changed: set<string>, i: nat, j: nat)
    requires GraphOk(parse, before) && GraphOk(parse, after)
    requires i < |before.artifacts| && j < |after.artifacts| && before.artifacts[i].path == after.artifacts[j].path
    ensures after.artifacts[j].path !in FullImpact(Some(before), after, changed).artifacts <==>
      && changed <= SourceSet(before) + SourceSet(after)
      && !DependenciesTouch(before.artifacts[i].sources, changed)
      && !DependenciesTouch(after.artifacts[j].sources, changed)
  {
    var global := GlobalChange(Some(before), after, changed);
    ReportedIff(parse, Some(before), after, changed, after.artifacts[j].path);
    OnlyNode(parse, before, global, changed, i);
    OnlyNode(parse, after, global, changed, j);
  }

  // ---- The report, told by the graphs alone ----------------------------------------------------------

  predicate HasSource(g: BuildGraph, path: string) {
    exists i :: 0 <= i < |g.sources| && g.sources[i].path == path
  }

  // Whether changes invalidate something with these dependencies: a path that neither graph knows invalidates
  // everything, any change whatever depends on all sources, and else only the paths that are named count.
  predicate Invalidated(before: Option<BuildGraph>, after: BuildGraph, changed: set<string>, dependencies: SourceDependencies) {
    || (exists path :: path in changed && !HasSource(after, path) && !(before.Some? && HasSource(before.value, path)))
    || (dependencies.AllSources? && exists path :: path in changed)
    || (dependencies.Explicit? && exists path :: path in changed && path in dependencies.paths)
  }

  lemma TouchedIff(before: Option<BuildGraph>, after: BuildGraph, changed: set<string>, dependencies: SourceDependencies)
    ensures Touched(dependencies, GlobalChange(before, after, changed), changed)
      <==> Invalidated(before, after, changed, dependencies)
  {
    forall path ensures path in KnownSources(before, after) <==>
      HasSource(after, path) || (before.Some? && HasSource(before.value, path))
    {
    }
    hide KnownSources, HasSource;
    if dependencies.Explicit? && exists path :: path in changed && path in dependencies.paths {
      var path :| path in changed && path in dependencies.paths;
      var i :| 0 <= i < |dependencies.paths| && dependencies.paths[i] == path;
    }
  }

  lemma {:induction false} RouteTouched(g: BuildGraph, global: bool, changed: set<string>, n: nat, route: string)
    returns (k: nat)
    requires n <= |g.routes| && route in RouteImpact(g, global, changed, n).routes
    ensures k < n && g.routes[k].route == route && Touched(g.routes[k].sources, global, changed)
  {
    if route in RouteImpact(g, global, changed, n - 1).routes {
      k := RouteTouched(g, global, changed, n - 1, route);
    } else {
      k := n - 1;
    }
  }

  ghost predicate RouteInvalidated(g: BuildGraph, before: Option<BuildGraph>, after: BuildGraph, changed: set<string>, route: string) {
    exists k :: 0 <= k < |g.routes| && g.routes[k].route == route && Invalidated(before, after, changed, g.routes[k].sources)
  }

  ghost predicate ArtifactInvalidated(g: BuildGraph, before: Option<BuildGraph>, after: BuildGraph, changed: set<string>, path: string) {
    exists k :: 0 <= k < |g.artifacts| && g.artifacts[k].path == path && Invalidated(before, after, changed, g.artifacts[k].sources)
  }

  lemma GraphRoutesIff(g: BuildGraph, before: Option<BuildGraph>, after: BuildGraph, changed: set<string>, route: string)
    ensures route in GraphImpact(g, GlobalChange(before, after, changed), changed).routes
      <==> RouteInvalidated(g, before, after, changed, route)
  {
    var global := GlobalChange(before, after, changed);
    hide GlobalChange, Invalidated, Touched;
    if route in GraphImpact(g, global, changed).routes {
      var k := RouteTouched(g, global, changed, |g.routes|, route);
      TouchedIff(before, after, changed, g.routes[k].sources);
    }
    if RouteInvalidated(g, before, after, changed, route) {
      var k :| 0 <= k < |g.routes| && g.routes[k].route == route && Invalidated(before, after, changed, g.routes[k].sources);
      TouchedIff(before, after, changed, g.routes[k].sources);
      RouteAffected(g, global, changed, |g.routes|, k);
    }
  }

  lemma TouchedNodeIff(g: BuildGraph, before: Option<BuildGraph>, after: BuildGraph, changed: set<string>, path: string)
    ensures TouchedNode(g, GlobalChange(before, after, changed), changed, path)
      <==> ArtifactInvalidated(g, before, after, changed, path)
  {
    forall k | 0 <= k < |g.artifacts|
      ensures Touched(g.artifacts[k].sources, GlobalChange(before, after, changed), changed)
        <==> Invalidated(before, after, changed, g.artifacts[k].sources)
    {
      TouchedIff(before, after, changed, g.artifacts[k].sources);
    }
    hide GlobalChange, Invalidated, Touched;
  }

  // A route is reported exactly when its node before, or its node now, is invalidated.
  lemma RouteReportedIff(before: Option<BuildGraph>, after: BuildGraph, changed: set<string>, route: string)
    ensures route in FullImpact(before, after, changed).routes <==>
      || (before.Some? && RouteInvalidated(before.value, before, after, changed, route))
      || RouteInvalidated(after, before, after, changed, route)
  {
    GraphRoutesIff(after, before, after, changed, route);
    if before.Some? {
      GraphRoutesIff(before.value, before, after, changed, route);
    }
    hide RouteInvalidated, GraphImpact;
  }

  // So is an artifact, of valid graphs.
  lemma ArtifactReportedIff(parse: Parser, before: Option<BuildGraph>, after: BuildGraph, changed: set<string>, path: string)
    requires (before.Some? ==> GraphOk(parse, before.value)) && GraphOk(parse, after)
    ensures path in FullImpact(before, after, changed).artifacts <==>
      || (before.Some? && ArtifactInvalidated(before.value, before, after, changed, path))
      || ArtifactInvalidated(after, before, after, changed, path)
  {
    ReportedIff(parse, before, after, changed, path);
    TouchedNodeIff(after, before, after, changed, path);
    if before.Some? {
      TouchedNodeIff(before.value, before, after, changed, path);
    }
    hide ArtifactInvalidated, TouchedNode, FullImpact, GraphOk;
  }

  // ---- The hashes of a valid graph -------------------------------------------------------------------

  predicate SourceHashed(g: BuildGraph, path: string, sha256: string) {
    exists i :: 0 <= i < |g.sources| && g.sources[i].path == path && g.sources[i].sha256 == sha256
  }

  predicate ArtifactHashed(g: BuildGraph, path: string, sha256: string) {
    exists i :: 0 <= i < |g.artifacts| && g.artifacts[i].path == path && g.artifacts[i].sha256 == sha256
  }

  lemma {:induction false} SourceHashIs(sources: seq<GraphSource>, n: nat, path: string, sha256: string)
    requires StrictlyOrdered(sources, SourcePath) && n <= |sources|
    ensures Get(SourceHashesTo(sources, n), path) == Some(sha256)
      <==> exists i :: 0 <= i < n && sources[i].path == path && sources[i].sha256 == sha256
  {
    if n > 0 {
      SourceHashIs(sources, n - 1, path, sha256);
      forall i | 0 <= i < n - 1 ensures sources[i].path != sources[n - 1].path {
        if sources[i].path == sources[n - 1].path {
          StrictDistinct(sources, SourcePath, i, n - 1);
        }
      }
      hide StrictlyOrdered;
    }
  }

  lemma {:induction false} ArtifactHashIs(artifacts: seq<GraphArtifact>, n: nat, path: string, sha256: string)
    requires StrictlyOrdered(artifacts, ArtifactPath) && n <= |artifacts|
    ensures Get(HashesTo(artifacts, n), path) == Some(sha256)
      <==> exists i :: 0 <= i < n && artifacts[i].path == path && artifacts[i].sha256 == sha256
  {
    if n > 0 {
      ArtifactHashIs(artifacts, n - 1, path, sha256);
      forall i | 0 <= i < n - 1 ensures artifacts[i].path != artifacts[n - 1].path {
        if artifacts[i].path == artifacts[n - 1].path {
          StrictDistinct(artifacts, ArtifactPath, i, n - 1);
        }
      }
      hide StrictlyOrdered;
    }
  }

  lemma SourceHashIff(parse: Parser, g: BuildGraph, path: string, sha256: string)
    requires GraphOk(parse, g)
    ensures Get(SourceHashes(g), path) == Some(sha256) <==> SourceHashed(g, path, sha256)
  {
    SourceHashIs(g.sources, |g.sources|, path, sha256);
  }

  lemma ArtifactHashIff(parse: Parser, g: BuildGraph, path: string, sha256: string)
    requires GraphOk(parse, g)
    ensures Get(ArtifactHashes(g), path) == Some(sha256) <==> ArtifactHashed(g, path, sha256)
  {
    ArtifactHashIs(g.artifacts, |g.artifacts|, path, sha256);
  }

  lemma DifferenceIff(a: map<string, string>, b: map<string, string>, key: string)
    ensures key in Differences(a, b) <==> exists value :: (Get(a, key) == Some(value)) != (Get(b, key) == Some(value))
  {
    if Get(a, key) != Get(b, key) {
      var value := if key in a then a[key] else b[key];
      assert (Get(a, key) == Some(value)) != (Get(b, key) == Some(value));
    }
  }

  // A source path has changed exactly when some hash belongs to it in only one of the two graphs: it was
  // added, removed, or has another content.  The same for an artifact.
  lemma ChangedIff(parse: Parser, before: Option<BuildGraph>, after: BuildGraph, path: string)
    requires (before.Some? ==> GraphOk(parse, before.value)) && GraphOk(parse, after)
    ensures path in Differences(MapOf(before, SourceHashes), SourceHashes(after)) <==>
      exists sha256 :: (before.Some? && SourceHashed(before.value, path, sha256)) != SourceHashed(after, path, sha256)
    ensures path in Differences(MapOf(before, ArtifactHashes), ArtifactHashes(after)) <==>
      exists sha256 :: (before.Some? && ArtifactHashed(before.value, path, sha256)) != ArtifactHashed(after, path, sha256)
  {
    DifferenceIff(MapOf(before, SourceHashes), SourceHashes(after), path);
    DifferenceIff(MapOf(before, ArtifactHashes), ArtifactHashes(after), path);
    hide Differences, SourceHashes, ArtifactHashes, SourceHashed, ArtifactHashed, GraphOk;
    forall sha256
      ensures Get(SourceHashes(after), path) == Some(sha256) <==> SourceHashed(after, path, sha256)
      ensures Get(ArtifactHashes(after), path) == Some(sha256) <==> ArtifactHashed(after, path, sha256)
    {
      SourceHashIff(parse, after, path, sha256);
      ArtifactHashIff(parse, after, path, sha256);
    }
    forall sha256
      ensures Get(MapOf(before, SourceHashes), path) == Some(sha256) <==> before.Some? && SourceHashed(before.value, path, sha256)
      ensures Get(MapOf(before, ArtifactHashes), path) == Some(sha256) <==> before.Some? && ArtifactHashed(before.value, path, sha256)
    {
      if before.Some? {
        SourceHashIff(parse, before.value, path, sha256);
        ArtifactHashIff(parse, before.value, path, sha256);
      }
    }
    hide MapOf, Get;
  }

  // ---- Monotonicity ----------------------------------------------------------------------------------

  lemma TouchMonotone(dependencies: SourceDependencies, g: bool, h: bool, changed: set<string>, more: set<string>)
    requires changed <= more && (g ==> h) && Touched(dependencies, g, changed)
    ensures Touched(dependencies, h, more)
  {
  }

  lemma {:induction false} RouteImpactMonotone(
    graph: BuildGraph, g: bool, h: bool, changed: set<string>, more: set<string>, n: nat)
    requires n <= |graph.routes| && changed <= more && (g ==> h)
    ensures RouteImpact(graph, g, changed, n).routes <= RouteImpact(graph, h, more, n).routes
    ensures RouteImpact(graph, g, changed, n).artifacts <= RouteImpact(graph, h, more, n).artifacts
  {
    if n > 0 {
      RouteImpactMonotone(graph, g, h, changed, more, n - 1);
      if Touched(graph.routes[n - 1].sources, g, changed) {
        TouchMonotone(graph.routes[n - 1].sources, g, h, changed, more);
      }
    }
  }

  lemma {:induction false} ArtifactImpactMonotone(
    graph: BuildGraph, g: bool, h: bool, changed: set<string>, more: set<string>, n: nat)
    requires n <= |graph.artifacts| && changed <= more && (g ==> h)
    ensures ArtifactImpact(graph, g, changed, n) <= ArtifactImpact(graph, h, more, n)
  {
    if n > 0 {
      ArtifactImpactMonotone(graph, g, h, changed, more, n - 1);
      if Touched(graph.artifacts[n - 1].sources, g, changed) {
        TouchMonotone(graph.artifacts[n - 1].sources, g, h, changed, more);
      }
    }
  }

  lemma GraphImpactMonotone(graph: BuildGraph, g: bool, h: bool, changed: set<string>, more: set<string>)
    requires changed <= more && (g ==> h)
    ensures GraphImpact(graph, g, changed).routes <= GraphImpact(graph, h, more).routes
    ensures GraphImpact(graph, g, changed).artifacts <= GraphImpact(graph, h, more).artifacts
  {
    RouteImpactMonotone(graph, g, h, changed, more, |graph.routes|);
    ArtifactImpactMonotone(graph, g, h, changed, more, |graph.artifacts|);
  }

  // Reporting more changed sources never shrinks what is affected.
  lemma ImpactMonotone(before: Option<BuildGraph>, after: BuildGraph, changed: set<string>, more: set<string>)
    requires changed <= more
    ensures FullImpact(before, after, changed).routes <= FullImpact(before, after, more).routes
    ensures FullImpact(before, after, changed).artifacts <= FullImpact(before, after, more).artifacts
  {
    var g, h := GlobalChange(before, after, changed), GlobalChange(before, after, more);
    GraphImpactMonotone(after, g, h, changed, more);
    if before.Some? {
      GraphImpactMonotone(before.value, g, h, changed, more);
    }
  }

  // ---- Soundness -------------------------------------------------------------------------------------

  // The hashes an artifact with these dependencies may depend on.
  function Inputs(g: BuildGraph, dependencies: SourceDependencies): map<string, string> {
    var hashes := SourceHashes(g);
    match dependencies
    case AllSources => hashes
    case Explicit(paths) => map path | path in hashes && path in paths :: hashes[path]
  }

  // Building is deterministic: the hash of an artifact is a function of its path and its declared inputs.
  ghost predicate Rendered(g: BuildGraph, render: (string, map<string, string>) -> string) {
    forall i :: 0 <= i < |g.artifacts| ==>
      g.artifacts[i].sha256 == render(g.artifacts[i].path, Inputs(g, g.artifacts[i].sources))
  }

  lemma UntouchedInputs(g: BuildGraph, h: BuildGraph, dependencies: SourceDependencies, changed: set<string>)
    requires Differences(SourceHashes(g), SourceHashes(h)) <= changed && !DependenciesTouch(dependencies, changed)
    ensures Inputs(g, dependencies) == Inputs(h, dependencies)
  {
    var a, b := SourceHashes(g), SourceHashes(h);
    match dependencies
    case AllSources =>
      SameMaps(a, b);
    case Explicit(paths) =>
      forall path | path in paths ensures Get(a, path) == Get(b, path) {
        assert path !in Differences(a, b);
      }
      var x, y := Inputs(g, dependencies), Inputs(h, dependencies);
      forall path ensures path in x <==> path in y {
        assert path in paths ==> Get(a, path) == Get(b, path);
      }
      forall path | path in x ensures x[path] == y[path] {
        assert Get(a, path) == Get(b, path);
      }
  }

  lemma SameMaps(a: map<string, string>, b: map<string, string>)
    requires Differences(a, b) == {}
    ensures a == b
  {
    forall key ensures Get(a, key) == Get(b, key) {
      assert key !in Differences(a, b);
    }
    forall key ensures key in a <==> key in b {
      assert Get(a, key) == Get(b, key);
    }
    forall key | key in a ensures a[key] == b[key] {
      assert Get(a, key) == Get(b, key);
    }
  }

  // The artifact at position i before and j after is the same one, with the same declared dependencies.
  predicate SameNode(before: BuildGraph, after: BuildGraph, i: nat, j: nat) {
    && i < |before.artifacts| && j < |after.artifacts|
    && before.artifacts[i].path == after.artifacts[j].path
    && before.artifacts[i].sources == after.artifacts[j].sources
  }

  lemma ChangedIsTouched(
    before: BuildGraph, after: BuildGraph, render: (string, map<string, string>) -> string, changed: set<string>,
    i: nat, j: nat)
    requires Rendered(before, render) && Rendered(after, render)
    requires Differences(SourceHashes(before), SourceHashes(after)) <= changed
    requires SameNode(before, after, i, j) && before.artifacts[i].sha256 != after.artifacts[j].sha256
    ensures DependenciesTouch(after.artifacts[j].sources, changed)
  {
    assert before.artifacts[i].sha256 == render(before.artifacts[i].path, Inputs(before, before.artifacts[i].sources));
    assert after.artifacts[j].sha256 == render(after.artifacts[j].path, Inputs(after, after.artifacts[j].sources));
    if !DependenciesTouch(after.artifacts[j].sources, changed) {
      UntouchedInputs(before, after, after.artifacts[j].sources, changed);
    }
  }

  // Every artifact that changed although its declared dependencies stayed the same is reported, and so is every
  // route that lists it, before or after.
  lemma RebuildSound(
    parse: Parser, before: BuildGraph, after: BuildGraph, render: (string, map<string, string>) -> string,
    changed: set<string>, i: nat, j: nat)
    requires GraphOk(parse, before) && GraphOk(parse, after) && Rendered(before, render) && Rendered(after, render)
    requires Differences(SourceHashes(before), SourceHashes(after)) <= changed
    requires SameNode(before, after, i, j) && before.artifacts[i].sha256 != after.artifacts[j].sha256
    ensures after.artifacts[j].path in FullImpact(Some(before), after, changed).artifacts
    ensures forall k, l :: Lists(before, k, l, before.artifacts[i].path) ==>
      before.routes[k].route in FullImpact(Some(before), after, changed).routes
    ensures forall k, l :: Lists(after, k, l, after.artifacts[j].path) ==>
      after.routes[k].route in FullImpact(Some(before), after, changed).routes
  {
    var global := GlobalChange(Some(before), after, changed);
    ChangedIsTouched(before, after, render, changed, i, j);
    ArtifactAffected(after, global, changed, |after.artifacts|, j);
    forall k, l | Lists(before, k, l, before.artifacts[i].path)
      ensures before.routes[k].route in FullImpact(Some(before), after, changed).routes
    {
      ListingRouteAffected(parse, before, global, changed, i, k, l);
    }
    forall k, l | Lists(after, k, l, after.artifacts[j].path)
      ensures after.routes[k].route in FullImpact(Some(before), after, changed).routes
    {
      ListingRouteAffected(parse, after, global, changed, j, k, l);
    }
  }

  predicate Lists(g: BuildGraph, k: int, l: int, path: string) {
    0 <= k < |g.routes| && 0 <= l < |g.routes[k].artifacts| && g.routes[k].artifacts[l] == path
  }

  lemma ListingRouteAffected(parse: Parser, g: BuildGraph, global: bool, changed: set<string>, i: nat, k: nat, l: nat)
    requires GraphOk(parse, g) && i < |g.artifacts| && Lists(g, k, l, g.artifacts[i].path)
    requires DependenciesTouch(g.artifacts[i].sources, changed)
    ensures g.routes[k].route in GraphImpact(g, global, changed).routes
  {
    var n := ListedNode(parse, g, k, l);
    assert n == i;
    RouteAffected(g, global, changed, |g.routes|, k);
  }

  // ---- Why the dependencies must stay the same -------------------------------------------------------

  function OneArtifact(sources: seq<GraphSource>, set256: string, dependency: string, sha256: string): BuildGraph {
    BuildGraph(BUILD_GRAPH_VERSION, "p", set256, sources, [],
               [GraphArtifact("x", "page", "site", None, Explicit([dependency]), sha256)])
  }

  // An artifact that now depends on another, unchanged source may change without being reported.
  lemma NewDependencyIsMissed(parse: Parser, s: string, t: string)
    requires Canonical(parse, "a") && Canonical(parse, "b") && Canonical(parse, "x")
    requires ValidSha256(s) && ValidSha256(t) && s != t
    ensures var sources := [GraphSource("a", s), GraphSource("b", t)];
      var before, after := OneArtifact(sources, s, "a", s), OneArtifact(sources, s, "b", t);
      && GraphOk(parse, before) && GraphOk(parse, after)
      && (exists render :: Rendered(before, render) && Rendered(after, render))
      && Differences(SourceHashes(before), SourceHashes(after)) == {}
      && before.artifacts[0].sha256 != after.artifacts[0].sha256
      && FullImpact(Some(before), after, {}) == Impact({}, {})
  {
    var sources := [GraphSource("a", s), GraphSource("b", t)];
    OneArtifactOk(parse, sources, s, "a", s, t);
    OneArtifactOk(parse, sources, s, "b", t, t);
    var before, after := OneArtifact(sources, s, "a", s), OneArtifact(sources, s, "b", t);
    var render := (path: string, inputs: map<string, string>) => if "a" in inputs then s else t;
    TwoSources(sources, s, t);
    assert "a" in Inputs(before, Explicit(["a"])) && "a" !in Inputs(after, Explicit(["b"]));
    assert Rendered(before, render) && Rendered(after, render);
    NothingTouched(sources, s, "a", s);
    NothingTouched(sources, s, "b", t);
  }

  lemma NothingTouched(sources: seq<GraphSource>, s: string, dependency: string, sha256: string)
    ensures GraphImpact(OneArtifact(sources, s, dependency, sha256), false, {}) == Impact({}, {})
  {
    var g := OneArtifact(sources, s, dependency, sha256);
    assert !Touched(g.artifacts[0].sources, false, {});
    assert ArtifactImpact(g, false, {}, 1) == ArtifactImpact(g, false, {}, 0);
  }

  lemma TwoSources(sources: seq<GraphSource>, s: string, t: string)
    requires sources == [GraphSource("a", s), GraphSource("b", t)]
    ensures SourceHashesTo(sources, 2) == map["a" := s, "b" := t]
  {
    assert SourceHashesTo(sources, 1) == map["a" := s];
  }

  lemma OneArtifactOk(parse: Parser, sources: seq<GraphSource>, s: string, dependency: string, sha256: string, t: string)
    requires Canonical(parse, "a") && Canonical(parse, "b") && Canonical(parse, "x")
    requires sources == [GraphSource("a", s), GraphSource("b", t)] && dependency in {"a", "b"}
    requires ValidSha256(s) && ValidSha256(t) && ValidSha256(sha256)
    ensures GraphOk(parse, OneArtifact(sources, s, dependency, sha256))
  {
    var g := OneArtifact(sources, s, dependency, sha256);
    assert Less("a", "b");
    assert g.sources[0].path == "a" && g.sources[1].path == "b";
    assert dependency in SourceSet(g);
    assert StrictPathsOk(parse, [dependency]);
    assert ArtifactOk(parse, g.artifacts[0], SourceSet(g), RouteSet(g));
  }
}
