// The causal build graph and its agreement with a report (pliego-artifact, lib.rs).
module BuildGraphs {
  import opened Prelude
  import opened Text
  import opened Sorting
  import opened Namespaces
  import opened Receipts

  const BUILD_GRAPH_VERSION := "1.0.0"
  const NUL: char := 0 as char

  datatype GraphSource = GraphSource(path: string, sha256: string)
  datatype SourceDependencies = AllSources | Explicit(paths: seq<string>)
  datatype GraphRoute = GraphRoute(route: string, sources: SourceDependencies, artifacts: seq<string>)
  datatype GraphArtifact = GraphArtifact(
    path: string, kind: string, producer: string, route: Option<string>, sources: SourceDependencies, sha256: string)

  datatype BuildGraph = BuildGraph(
    graphVersion: string,
    projectId: string,
    sourceSetSha256: string,
    sources: seq<GraphSource>,
    routes: seq<GraphRoute>,
    artifacts: seq<GraphArtifact>)

  function SourcePath(s: GraphSource): string { s.path }
  function RouteName(r: GraphRoute): string { r.route }
  function ArtifactPath(a: GraphArtifact): string { a.path }

  // ---- What validate_build_graph accepts -------------------------------------------------------------

  predicate SourceOk(parse: Parser, s: GraphSource) {
    Canonical(parse, s.path) && ValidSha256(s.sha256)
  }

  predicate SourcesOk(parse: Parser, sources: seq<GraphSource>) {
    && StrictlyOrdered(sources, SourcePath)
    && forall i :: 0 <= i < |sources| ==> SourceOk(parse, sources[i])
  }

  predicate DependenciesOk(parse: Parser, dependencies: SourceDependencies, sources: set<string>) {
    dependencies.Explicit? ==>
      && |dependencies.paths| > 0
      && StrictPathsOk(parse, dependencies.paths)
      && forall i :: 0 <= i < |dependencies.paths| ==> dependencies.paths[i] in sources
  }

  predicate RouteNameOk(name: string) {
    |name| <= MAX_PORTABLE_PATH_BYTES && name != "" && name[0] == '/' && '\\' !in name && NUL !in name
  }

  predicate RouteOk(parse: Parser, r: GraphRoute, sources: set<string>) {
    RouteNameOk(r.route) && DependenciesOk(parse, r.sources, sources) && StrictPathsOk(parse, r.artifacts)
  }

  predicate RoutesOk(parse: Parser, routes: seq<GraphRoute>, sources: set<string>) {
    && StrictlyOrdered(routes, RouteName)
    && forall i :: 0 <= i < |routes| ==> RouteOk(parse, routes[i], sources)
  }

  predicate ArtifactOk(parse: Parser, a: GraphArtifact, sources: set<string>, routes: set<string>) {
    && Canonical(parse, a.path)
    && 0 < |a.kind| <= 64
    && 0 < |a.producer| <= MAX_PORTABLE_PATH_BYTES
    && (a.route.Some? ==> a.route.value in routes)
    && DependenciesOk(parse, a.sources, sources)
    && ValidSha256(a.sha256)
  }

  predicate ArtifactsOk(parse: Parser, artifacts: seq<GraphArtifact>, sources: set<string>, routes: set<string>) {
    && StrictlyOrdered(artifacts, ArtifactPath)
    && forall i :: 0 <= i < |artifacts| ==> ArtifactOk(parse, artifacts[i], sources, routes)
  }

  // The node an artifact path of a route names agrees with the route.
  predicate EdgeOk(artifacts: seq<GraphArtifact>, r: GraphRoute, path: string) {
    exists k :: 0 <= k < |artifacts| && artifacts[k].path == path
      && artifacts[k].route == Some(r.route) && artifacts[k].sources == r.sources
  }

  predicate RouteEdgesOk(artifacts: seq<GraphArtifact>, r: GraphRoute) {
    forall j :: 0 <= j < |r.artifacts| ==> EdgeOk(artifacts, r, r.artifacts[j])
  }

  function SourceSet(g: BuildGraph): set<string> {
    set i | 0 <= i < |g.sources| :: g.sources[i].path
  }

  function RouteSet(g: BuildGraph): set<string> {
    set i | 0 <= i < |g.routes| :: g.routes[i].route
  }

  function ArtifactSet(g: BuildGraph): set<string> {
    set i | 0 <= i < |g.artifacts| :: g.artifacts[i].path
  }

  predicate HeadOk(g: BuildGraph) {
    && g.graphVersion == BUILD_GRAPH_VERSION
    && ValidProjectId(g.projectId)
    && ValidSha256(g.sourceSetSha256)
    && |g.sources| <= MAX_ARTIFACT_FILES && |g.routes| <= MAX_ARTIFACT_FILES && |g.artifacts| <= MAX_ARTIFACT_FILES
  }

  predicate EdgesOk(g: BuildGraph) {
    forall i :: 0 <= i < |g.routes| ==> RouteEdgesOk(g.artifacts, g.routes[i])
  }

  predicate GraphOk(parse: Parser, g: BuildGraph) {
    && HeadOk(g)
    && SourcesOk(parse, g.sources)
    && RoutesOk(parse, g.routes, SourceSet(g))
    && ArtifactsOk(parse, g.artifacts, SourceSet(g), RouteSet(g))
    && EdgesOk(g)
  }

  // ---- The validator ---------------------------------------------------------------------------------

  method ValidateDependencies(parse: Parser, dependencies: SourceDependencies, sources: set<string>)
    returns (error: Option<ArtifactError>)
    ensures error.None? <==> DependenciesOk(parse, dependencies, sources)
  {
    if dependencies.AllSources? {
      return None;
    }
    if |dependencies.paths| == 0 {
      return Some(InvalidReceipt);
    }
    error := ValidateStrictPortablePaths(parse, dependencies.paths);
    if error.Some? {
      return;
    }
    for i := 0 to |dependencies.paths|
      invariant forall k :: 0 <= k < i ==> dependencies.paths[k] in sources
    {
      if dependencies.paths[i] !in sources {
        return Some(InvalidReceipt);
      }
    }
    return None;
  }

  method ValidateSources(parse: Parser, sources: seq<GraphSource>) returns (error: Option<ArtifactError>, paths: set<string>)
    ensures error.None? <==> SourcesOk(parse, sources)
    ensures error.None? ==> paths == set i | 0 <= i < |sources| :: sources[i].path
  {
    hide SourceOk, Less;
    paths := {};
    var previous: Option<string> := None;
    for i := 0 to |sources|
      invariant previous == if i == 0 then None else Some(sources[i - 1].path)
      invariant paths == set k | 0 <= k < i :: sources[k].path
      invariant StrictTo(sources, SourcePath, i)
      invariant forall k :: 0 <= k < i ==> SourceOk(parse, sources[k])
    {
      var source := sources[i];
      if previous.Some? && !Less(previous.value, source.path) {
        assert !Less(SourcePath(sources[i - 1]), SourcePath(sources[i]));
        return Some(InvalidReceipt), paths;
      }
      if !SourceOk(parse, source) {
        return Some(InvalidReceipt), paths;
      }
      paths, previous := paths + {source.path}, Some(source.path);
    }
    return None, paths;
  }

  method ValidateRoutes(parse: Parser, routes: seq<GraphRoute>, sources: set<string>)
    returns (error: Option<ArtifactError>, names: set<string>)
    ensures error.None? <==> RoutesOk(parse, routes, sources)
    ensures error.None? ==> names == set i | 0 <= i < |routes| :: routes[i].route
  {
    names := {};
    var previous: Option<string> := None;
    for i := 0 to |routes|
      invariant previous == if i == 0 then None else Some(routes[i - 1].route)
      invariant names == set k | 0 <= k < i :: routes[k].route
      invariant StrictTo(routes, RouteName, i)
      invariant forall k :: 0 <= k < i ==> RouteOk(parse, routes[k], sources)
    {
      var route := routes[i];
      if previous.Some? && !Less(previous.value, route.route) {
        assert !Less(RouteName(routes[i - 1]), RouteName(routes[i]));
        return Some(InvalidReceipt), names;
      }
      error := ValidateRoute(parse, route, sources);
      if error.Some? {
        return error, names;
      }
      names, previous := names + {route.route}, Some(route.route);
    }
    return None, names;
  }

  method ValidateRoute(parse: Parser, route: GraphRoute, sources: set<string>) returns (error: Option<ArtifactError>)
    ensures error.None? <==> RouteOk(parse, route, sources)
  {
    if !RouteNameOk(route.route) {
      return Some(InvalidReceipt);
    }
    error := ValidateDependencies(parse, route.sources, sources);
    if error.Some? {
      return;
    }
    error := ValidateStrictPortablePaths(parse, route.artifacts);
  }

  method ValidateArtifacts(parse: Parser, artifacts: seq<GraphArtifact>, sources: set<string>, routes: set<string>)
    returns (error: Option<ArtifactError>, paths: set<string>)
    ensures error.None? <==> ArtifactsOk(parse, artifacts, sources, routes)
    ensures error.None? ==> paths == set i | 0 <= i < |artifacts| :: artifacts[i].path
  {
    paths := {};
    var previous: Option<string> := None;
    for i := 0 to |artifacts|
      invariant previous == if i == 0 then None else Some(artifacts[i - 1].path)
      invariant paths == set k | 0 <= k < i :: artifacts[k].path
      invariant StrictTo(artifacts, ArtifactPath, i)
      invariant forall k :: 0 <= k < i ==> ArtifactOk(parse, artifacts[k], sources, routes)
    {
      var artifact := artifacts[i];
      if previous.Some? && !Less(previous.value, artifact.path) {
        assert !Less(ArtifactPath(artifacts[i - 1]), ArtifactPath(artifacts[i]));
        return Some(InvalidReceipt), paths;
      }
      error := ValidateArtifact(parse, artifact, sources, routes);
      if error.Some? {
        return error, paths;
      }
      paths, previous := paths + {artifact.path}, Some(artifact.path);
    }
    return None, paths;
  }

  method ValidateArtifact(parse: Parser, a: GraphArtifact, sources: set<string>, routes: set<string>)
    returns (error: Option<ArtifactError>)
    ensures error.None? <==> ArtifactOk(parse, a, sources, routes)
  {
    var portable := parse(a.path);
    if portable.Err? {
      return Some(portable.error);
    }
    if portable.value.value != a.path || a.kind == "" || |a.kind| > 64
       || a.producer == "" || |a.producer| > MAX_PORTABLE_PATH_BYTES {
      return Some(InvalidReceipt);
    }
    if a.route.Some? && a.route.value !in routes {
      return Some(InvalidReceipt);
    }
    error := ValidateDependencies(parse, a.sources, sources);
    if error.None? && !ValidSha256(a.sha256) {
      error := Some(InvalidReceipt);
    }
  }

  // find: the first node with the path.
  method Find(artifacts: seq<GraphArtifact>, path: string) returns (k: nat)
    requires exists i :: 0 <= i < |artifacts| && artifacts[i].path == path
    ensures k < |artifacts| && artifacts[k].path == path
  {
    k := 0;
    while artifacts[k].path != path
      invariant k < |artifacts| && forall i :: 0 <= i < k ==> artifacts[i].path != path
      decreases |artifacts| - k
    {
      k := k + 1;
    }
  }

  method ValidateRouteEdges(artifacts: seq<GraphArtifact>, paths: set<string>, r: GraphRoute)
    returns (error: Option<ArtifactError>)
    requires StrictlyOrdered(artifacts, ArtifactPath)
    requires paths == set i | 0 <= i < |artifacts| :: artifacts[i].path
    ensures error.None? <==> RouteEdgesOk(artifacts, r)
  {
    for j := 0 to |r.artifacts|
      invariant forall k :: 0 <= k < j ==> EdgeOk(artifacts, r, r.artifacts[k])
    {
      var path := r.artifacts[j];
      if path !in paths {
        assert !EdgeOk(artifacts, r, r.artifacts[j]);
        return Some(InvalidReceipt);
      }
      var k := Find(artifacts, path);
      if artifacts[k].route != Some(r.route) || artifacts[k].sources != r.sources {
        OtherNodesDiffer(artifacts, r, path, k);
        return Some(InvalidReceipt);
      }
      assert EdgeOk(artifacts, r, r.artifacts[j]);
    }
    return None;
  }

  lemma OtherNodesDiffer(artifacts: seq<GraphArtifact>, r: GraphRoute, path: string, k: nat)
    requires StrictlyOrdered(artifacts, ArtifactPath) && k < |artifacts| && artifacts[k].path == path
    requires artifacts[k].route != Some(r.route) || artifacts[k].sources != r.sources
    ensures !EdgeOk(artifacts, r, path)
  {
    forall i | 0 <= i < |artifacts| && artifacts[i].path == path ensures i == k {
      StrictDistinct(artifacts, ArtifactPath, i, k);
    }
  }

  method ValidateBuildGraph(parse: Parser, g: BuildGraph) returns (error: Option<ArtifactError>)
    ensures error.None? <==> GraphOk(parse, g)
  {
    if !HeadOk(g) {
      return Some(InvalidReceipt);
    }
    var sources, routes, paths;
    error, sources := ValidateSources(parse, g.sources);
    if error.Some? {
      return;
    }
    error, routes := ValidateRoutes(parse, g.routes, sources);
    if error.Some? {
      return;
    }
    error, paths := ValidateArtifacts(parse, g.artifacts, sources, routes);
    if error.Some? {
      return;
    }
    for i := 0 to |g.routes|
      invariant forall k :: 0 <= k < i ==> RouteEdgesOk(g.artifacts, g.routes[k])
    {
      error := ValidateRouteEdges(g.artifacts, paths, g.routes[i]);
      if error.Some? {
        return;
      }
    }
    return None;
  }

  // ---- Every artifact is listed at most once ---------------------------------------------------------

  lemma ListedAtMostOnce(parse: Parser, g: BuildGraph, i: nat, j: nat, k: nat, l: nat)
    requires GraphOk(parse, g)
    requires i < |g.routes| && j < |g.routes[i].artifacts|
    requires k < |g.routes| && l < |g.routes[k].artifacts|
    requires g.routes[i].artifacts[j] == g.routes[k].artifacts[l]
    ensures i == k && j == l
  {
    var a := ListedNode(parse, g, i, j);
    var b := ListedNode(parse, g, k, l);
    StrictDistinct(g.artifacts, ArtifactPath, a, b);
    StrictDistinct(g.routes, RouteName, i, k);
    assert RouteOk(parse, g.routes[i], SourceSet(g));
    StrictDistinct(g.routes[i].artifacts, Itself, j, l);
  }

  // The one node a listed path names points back to the route and has the same dependencies.
  lemma ListedNode(parse: Parser, g: BuildGraph, i: nat, j: nat) returns (n: nat)
    requires GraphOk(parse, g) && i < |g.routes| && j < |g.routes[i].artifacts|
    ensures n < |g.artifacts| && g.artifacts[n].path == g.routes[i].artifacts[j]
    ensures g.artifacts[n].route == Some(g.routes[i].route) && g.artifacts[n].sources == g.routes[i].sources
    ensures forall m :: 0 <= m < |g.artifacts| && g.artifacts[m].path == g.routes[i].artifacts[j] ==> m == n
  {
    assert RouteEdgesOk(g.artifacts, g.routes[i]);
    assert EdgeOk(g.artifacts, g.routes[i], g.routes[i].artifacts[j]);
    n :| 0 <= n < |g.artifacts| && g.artifacts[n].path == g.routes[i].artifacts[j]
      && g.artifacts[n].route == Some(g.routes[i].route) && g.artifacts[n].sources == g.routes[i].sources;
    forall m | 0 <= m < |g.artifacts| && g.artifacts[m].path == g.routes[i].artifacts[j] ensures m == n {
      StrictDistinct(g.artifacts, ArtifactPath, m, n);
    }
  }

  // The paths that routes list, and the paths of the artifacts that name a route.
  function ListedPaths(g: BuildGraph): set<string> {
    set i, path | 0 <= i < |g.routes| && path in g.routes[i].artifacts :: path
  }

  function RoutedPaths(g: BuildGraph): set<string> {
    set n | 0 <= n < |g.artifacts| && g.artifacts[n].route.Some? :: g.artifacts[n].path
  }

  // The route that artifact n names lists it.
  predicate ListedByItsRoute(g: BuildGraph, n: nat)
    requires n < |g.artifacts| && g.artifacts[n].route.Some?
  {
    exists i :: 0 <= i < |g.routes| && g.routes[i].route == g.artifacts[n].route.value
      && g.artifacts[n].path in g.routes[i].artifacts
  }

  ghost predicate AllListed(g: BuildGraph) {
    forall n :: 0 <= n < |g.artifacts| && g.artifacts[n].route.Some? ==> ListedByItsRoute(g, n)
  }

  lemma ListedIsRouted(parse: Parser, g: BuildGraph)
    requires GraphOk(parse, g)
    ensures ListedPaths(g) <= RoutedPaths(g)
  {
    forall i, path | 0 <= i < |g.routes| && path in g.routes[i].artifacts ensures path in RoutedPaths(g) {
      var j :| 0 <= j < |g.routes[i].artifacts| && g.routes[i].artifacts[j] == path;
      var n := ListedNode(parse, g, i, j);
    }
  }

  // An artifact that some route lists is listed by the route it names.
  lemma ListedByItsRouteIff(parse: Parser, g: BuildGraph, n: nat)
    requires GraphOk(parse, g) && n < |g.artifacts| && g.artifacts[n].route.Some?
    ensures ListedByItsRoute(g, n) <==> g.artifacts[n].path in ListedPaths(g)
  {
    if g.artifacts[n].path in ListedPaths(g) {
      var i :| 0 <= i < |g.routes| && g.artifacts[n].path in g.routes[i].artifacts;
      var j :| 0 <= j < |g.routes[i].artifacts| && g.routes[i].artifacts[j] == g.artifacts[n].path;
      var m := ListedNode(parse, g, i, j);
      assert m == n;
    }
  }

  // In a valid graph every artifact that names a route is listed by it exactly when as many paths are listed
  // as artifacts name a route.
  lemma AllListedIff(parse: Parser, g: BuildGraph)
    requires GraphOk(parse, g)
    ensures AllListed(g) <==> |ListedPaths(g)| == |RoutedPaths(g)|
  {
    ListedIsRouted(parse, g);
    if AllListed(g) {
      forall path | path in RoutedPaths(g) ensures path in ListedPaths(g) {
        var n :| 0 <= n < |g.artifacts| && g.artifacts[n].route.Some? && g.artifacts[n].path == path;
        assert ListedByItsRoute(g, n);
      }
      assert ListedPaths(g) == RoutedPaths(g);
    }
    if |ListedPaths(g)| == |RoutedPaths(g)| {
      SubsetOfEqualSize(ListedPaths(g), RoutedPaths(g));
      forall n | 0 <= n < |g.artifacts| && g.artifacts[n].route.Some? ensures ListedByItsRoute(g, n) {
        assert g.artifacts[n].path in RoutedPaths(g);
        ListedByItsRouteIff(parse, g, n);
      }
    }
  }

  function UnlistedGraph(sha256: string): BuildGraph {
    BuildGraph(BUILD_GRAPH_VERSION, "p", sha256, [], [GraphRoute("/", AllSources, [])],
               [GraphArtifact("a", "page", "site", Some("/"), AllSources, sha256)])
  }

  // The edge check runs from routes to artifacts only: an artifact may name a route that does not list it.
  lemma NamedRouteNeedNotList(parse: Parser, sha256: string)
    requires Canonical(parse, "a") && ValidSha256(sha256)
    ensures var g := UnlistedGraph(sha256);
      && GraphOk(parse, g) && g.artifacts[0].route == Some(g.routes[0].route)
      && g.artifacts[0].path !in g.routes[0].artifacts
      && !AllListed(g)
  {
    var g := UnlistedGraph(sha256);
    assert !ListedByItsRoute(g, 0);
    assert g.routes[0].route in RouteSet(g);
    assert ArtifactOk(parse, g.artifacts[0], SourceSet(g), RouteSet(g));
  }

  // ---- Against a report ------------------------------------------------------------------------------

  function ExpectedSources(sources: seq<EvidenceFile>): (r: seq<GraphSource>)
    ensures |r| == |sources|
    ensures forall i :: 0 <= i < |r| ==> r[i] == GraphSource(sources[i].path, sources[i].sha256)
  {
    seq(|sources|, i requires 0 <= i < |sources| => GraphSource(sources[i].path, sources[i].sha256))
  }

  predicate IdentityOk(g: BuildGraph, report: BuildReport) {
    && g.projectId == report.receipt.context.ownership.projectId
    && g.sourceSetSha256 == report.receipt.context.sourceSetSha256
    && g.sources == ExpectedSources(report.receipt.context.sources)
  }

  // The payload paths of the receipt: everything but the graph file.
  function PayloadPaths(files: seq<OutputFile>, n: nat): set<string>
    requires n <= |files|
  {
    set i | 0 <= i < n && files[i].path != BUILD_GRAPH_NAME :: files[i].path
  }

  predicate Matches(a: GraphArtifact, f: OutputFile) {
    a.path == f.path && f.path != BUILD_GRAPH_NAME && a.kind == f.kind && a.producer == f.producer && a.sha256 == f.sha256
  }

  predicate DeclaredIn(a: GraphArtifact, files: seq<OutputFile>) {
    exists i :: 0 <= i < |files| && Matches(a, files[i])
  }

  // What acceptance against a report means: the graph covers the payload exactly, with the same metadata.
  predicate CoversPayload(g: BuildGraph, files: seq<OutputFile>) {
    && ArtifactSet(g) == PayloadPaths(files, |files|)
    && forall i :: 0 <= i < |g.artifacts| ==> DeclaredIn(g.artifacts[i], files)
  }

  lemma {:induction false} SubsetOfEqualSize<T>(a: set<T>, b: set<T>)
    requires a <= b && |a| == |b|
    ensures a == b
  {
    if a != {} {
      var x :| x in a;
      SubsetOfEqualSize(a - {x}, b - {x});
    }
  }

  function PathsTo(artifacts: seq<GraphArtifact>, n: nat): set<string>
    requires n <= |artifacts|
  {
    set i | 0 <= i < n :: artifacts[i].path
  }

  lemma {:induction false} DistinctPaths(artifacts: seq<GraphArtifact>, n: nat)
    requires StrictlyOrdered(artifacts, ArtifactPath) && n <= |artifacts|
    ensures |PathsTo(artifacts, n)| == n
  {
    if n > 0 {
      DistinctPaths(artifacts, n - 1);
      NewPath(artifacts, n - 1);
      NextPath(artifacts, n - 1);
    }
  }

  lemma ArtifactCount(g: BuildGraph)
    requires StrictlyOrdered(g.artifacts, ArtifactPath)
    ensures |ArtifactSet(g)| == |g.artifacts|
  {
    DistinctPaths(g.artifacts, |g.artifacts|);
    assert ArtifactSet(g) == PathsTo(g.artifacts, |g.artifacts|);
  }

  lemma NextPath(artifacts: seq<GraphArtifact>, n: nat)
    requires n < |artifacts|
    ensures PathsTo(artifacts, n + 1) == PathsTo(artifacts, n) + {artifacts[n].path}
  {
  }

  lemma NewPath(artifacts: seq<GraphArtifact>, n: nat)
    requires StrictlyOrdered(artifacts, ArtifactPath) && n < |artifacts|
    ensures artifacts[n].path !in PathsTo(artifacts, n)
  {
    forall i | 0 <= i < n ensures artifacts[i].path != artifacts[n].path {
      if artifacts[i].path == artifacts[n].path {
        StrictDistinct(artifacts, ArtifactPath, i, n);
      }
    }
  }

  // expected maps the payload paths to their outputs.
  ghost predicate Indexes(expected: map<string, OutputFile>, files: seq<OutputFile>, n: nat)
    requires n <= |files|
  {
    && expected.Keys == PayloadPaths(files, n)
    && forall path :: path in expected ==> expected[path] in files && expected[path].path == path
  }

  method CollectExpected(files: seq<OutputFile>) returns (expected: map<string, OutputFile>)
    ensures Indexes(expected, files, |files|)
  {
    expected := map[];
    for i := 0 to |files|
      invariant Indexes(expected, files, i)
    {
      if files[i].path != BUILD_GRAPH_NAME {
        expected := expected[files[i].path := files[i]];
      }
    }
  }

  lemma DeclaredIff(a: GraphArtifact, files: seq<OutputFile>, expected: map<string, OutputFile>)
    requires StrictlyOrdered(files, OutputPath) && Indexes(expected, files, |files|) && a.path in expected
    ensures DeclaredIn(a, files) <==> Matches(a, expected[a.path])
  {
    var j :| 0 <= j < |files| && files[j] == expected[a.path];
    forall k | 0 <= k < |files| && Matches(a, files[k]) ensures k == j {
      StrictDistinct(files, OutputPath, k, j);
    }
  }

  method CheckDeclared(a: GraphArtifact, files: seq<OutputFile>, expected: map<string, OutputFile>)
    returns (error: Option<ArtifactError>)
    requires StrictlyOrdered(files, OutputPath) && Indexes(expected, files, |files|)
    ensures error.None? <==> a.path in expected && DeclaredIn(a, files)
  {
    if a.path !in expected {
      return Some(InvalidReceipt);
    }
    var output := expected[a.path];
    DeclaredIff(a, files, expected);
    if a.kind != output.kind || a.producer != output.producer || a.sha256 != output.sha256 {
      return Some(InvalidReceipt);
    }
    return None;
  }

  predicate AllDeclared(artifacts: seq<GraphArtifact>, files: seq<OutputFile>, paths: set<string>, n: nat)
    requires n <= |artifacts|
  {
    forall k :: 0 <= k < n ==> artifacts[k].path in paths && DeclaredIn(artifacts[k], files)
  }

  method CheckAllDeclared(artifacts: seq<GraphArtifact>, files: seq<OutputFile>, expected: map<string, OutputFile>)
    returns (error: Option<ArtifactError>)
    requires StrictlyOrdered(files, OutputPath) && Indexes(expected, files, |files|)
    ensures error.None? <==> AllDeclared(artifacts, files, expected.Keys, |artifacts|)
  {
    for i := 0 to |artifacts|
      invariant AllDeclared(artifacts, files, expected.Keys, i)
    {
      error := CheckDeclared(artifacts[i], files, expected);
      if error.Some? {
        return;
      }
    }
    return None;
  }

  // The count and the lookups together test for equal path sets.
  lemma CountAndLookups(g: BuildGraph, files: seq<OutputFile>)
    requires StrictlyOrdered(g.artifacts, ArtifactPath)
    ensures CoversPayload(g, files) <==>
      && |g.artifacts| == |PayloadPaths(files, |files|)|
      && AllDeclared(g.artifacts, files, PayloadPaths(files, |files|), |g.artifacts|)
  {
    var payload := PayloadPaths(files, |files|);
    ArtifactCount(g);
    if CoversPayload(g, files) {
      forall k | 0 <= k < |g.artifacts| ensures g.artifacts[k].path in payload {
        assert g.artifacts[k].path in ArtifactSet(g);
      }
    }
    if |g.artifacts| == |payload| && AllDeclared(g.artifacts, files, payload, |g.artifacts|) {
      assert ArtifactSet(g) <= payload;
      SubsetOfEqualSize(ArtifactSet(g), payload);
    }
  }

  method ValidateCoverage(g: BuildGraph, files: seq<OutputFile>) returns (error: Option<ArtifactError>)
    requires StrictlyOrdered(g.artifacts, ArtifactPath) && StrictlyOrdered(files, OutputPath)
    ensures error.None? <==> CoversPayload(g, files)
  {
    var expected := CollectExpected(files);
    CountAndLookups(g, files);
    assert |expected| == |expected.Keys|;
    if |g.artifacts| != |expected| {
      return Some(InvalidReceipt);
    }
    error := CheckAllDeclared(g.artifacts, files, expected);
  }

  predicate AgainstReportOk(env: Environment, g: BuildGraph, report: BuildReport) {
    && GraphOk(env.parse, g) && ReportOk(env, report)
    && IdentityOk(g, report) && CoversPayload(g, report.receipt.outputs.files)
  }

  method ValidateAgainstReport(env: Environment, g: BuildGraph, report: BuildReport) returns (error: Option<ArtifactError>)
    ensures error.None? <==> AgainstReportOk(env, g, report)
  {
    error := ValidateBuildGraph(env.parse, g);
    if error.Some? {
      return;
    }
    error := ValidateReport(env, report);
    if error.Some? {
      return;
    }
    if !IdentityOk(g, report) {
      return Some(InvalidReceipt);
    }
    error := ValidateCoverage(g, report.receipt.outputs.files);
  }

  // An accepted graph has exactly one node for each output of the receipt, the graph file aside, and the node
  // carries that output's kind, producer and hash.
  lemma ArtifactsAreTheOutputs(env: Environment, g: BuildGraph, report: BuildReport)
    requires AgainstReportOk(env, g, report)
    ensures forall path :: path in ArtifactSet(g) <==> IsPayload(path, report.receipt.outputs.files)
    ensures forall i, f :: 0 <= i < |g.artifacts| && f in report.receipt.outputs.files && f.path == g.artifacts[i].path ==>
      Matches(g.artifacts[i], f)
    ensures forall i, j :: 0 <= i < |g.artifacts| && 0 <= j < |g.artifacts| && g.artifacts[i].path == g.artifacts[j].path ==>
      i == j
  {
    CoveredPaths(g, report.receipt.outputs.files);
    CoveredMetadata(g, report.receipt.outputs.files);
    forall i, j | 0 <= i < |g.artifacts| && 0 <= j < |g.artifacts| && g.artifacts[i].path == g.artifacts[j].path
      ensures i == j
    {
      StrictDistinct(g.artifacts, ArtifactPath, i, j);
    }
  }

  predicate IsPayload(path: string, files: seq<OutputFile>) {
    path != BUILD_GRAPH_NAME && exists f :: f in files && f.path == path
  }

  lemma CoveredPaths(g: BuildGraph, files: seq<OutputFile>)
    requires CoversPayload(g, files)
    ensures forall path :: path in ArtifactSet(g) <==> IsPayload(path, files)
  {
    forall path | IsPayload(path, files) ensures path in PayloadPaths(files, |files|) {
      var f :| f in files && f.path == path;
      var k :| 0 <= k < |files| && files[k] == f;
    }
  }

  lemma CoveredMetadata(g: BuildGraph, files: seq<OutputFile>)
    requires CoversPayload(g, files) && StrictlyOrdered(files, OutputPath)
    ensures forall i, f :: 0 <= i < |g.artifacts| && f in files && f.path == g.artifacts[i].path ==> Matches(g.artifacts[i], f)
  {
    forall i, f | 0 <= i < |g.artifacts| && f in files && f.path == g.artifacts[i].path ensures Matches(g.artifacts[i], f) {
      assert DeclaredIn(g.artifacts[i], files);
      var j :| 0 <= j < |files| && Matches(g.artifacts[i], files[j]);
      var k :| 0 <= k < |files| && files[k] == f;
      StrictDistinct(files, OutputPath, j, k);
    }
  }
}
