// The packages a build depends on: the worklist of reachable_package_ids (pliego-cli, main.rs).
module Reachability {
  import opened Prelude

  // belowRoot: the canonical directory of the package's manifest lies below the project root.
  datatype Package = Package(id: string, name: string, belowRoot: bool)

  datatype Node = Node(id: string, dependencies: seq<string>)

  datatype Metadata = Metadata(packages: seq<Package>, resolve: Option<seq<Node>>)

  datatype Context = Context(sitePackage: string, clientPackage: Option<string>)

  datatype Failure = SitePackageNotUnique | ClientPackageNotUnique | NoGraph | MissingNode(id: string)

  function Ids(packages: seq<Package>, keep: Package -> bool): seq<string> {
    if packages == [] then []
    else Ids(packages[..|packages| - 1], keep) + (if keep(packages[|packages| - 1]) then [packages[|packages| - 1].id] else [])
  }

  function SiteTest(name: string): Package -> bool {
    (p: Package) => p.name == name && p.belowRoot
  }

  function ClientTest(name: string): Package -> bool {
    (p: Package) => p.name == name
  }

  function SiteRoots(packages: seq<Package>, name: string): seq<string> {
    Ids(packages, SiteTest(name))
  }

  function ClientRoots(packages: seq<Package>, name: string): seq<string> {
    Ids(packages, ClientTest(name))
  }

  // The ids the search starts from: exactly one site package, and exactly one client package if there is one.
  function RootIds(context: Context, metadata: Metadata): Result<seq<string>, Failure> {
    var site := SiteRoots(metadata.packages, context.sitePackage);
    if |site| != 1 then Err(SitePackageNotUnique)
    else if context.clientPackage.None? then Ok(site)
    else
      var client := ClientRoots(metadata.packages, context.clientPackage.value);
      if |client| != 1 then Err(ClientPackageNotUnique) else Ok(site + client)
  }

  // Nodes collected into a map: of two nodes with one id, the later one counts.
  function Graph(nodes: seq<Node>): map<string, seq<string>> {
    if nodes == [] then map[]
    else
      var last := nodes[|nodes| - 1];
      Graph(nodes[..|nodes| - 1])[last.id := last.dependencies]
  }

  // The node that counts for an id is the last one with it.
  predicate LastNode(nodes: seq<Node>, i: nat) {
    i < |nodes| && forall j :: i < j < |nodes| ==> nodes[j].id != nodes[i].id
  }

  lemma {:induction false} GraphIsLast(nodes: seq<Node>, id: string)
    ensures forall i: nat :: LastNode(nodes, i) && nodes[i].id == id ==> id in Graph(nodes) && Graph(nodes)[id] == nodes[i].dependencies
    ensures id in Graph(nodes) ==> exists i: nat :: LastNode(nodes, i) && nodes[i].id == id
  {
    if nodes != [] {
      var n := |nodes| - 1;
      var front := nodes[..n];
      GraphIsLast(front, id);
      assert LastNode(nodes, n);
      if nodes[n].id != id {
        forall i: nat ensures LastNode(nodes, i) && nodes[i].id == id <==> LastNode(front, i) && front[i].id == id {
        }
      }
    }
  }

  // The package at position i is the only one that is kept.
  predicate Only(packages: seq<Package>, keep: Package -> bool, i: nat) {
    && i < |packages| && keep(packages[i])
    && forall j :: 0 <= j < |packages| && keep(packages[j]) ==> j == i
  }

  lemma {:induction false} NoIds(packages: seq<Package>, keep: Package -> bool)
    ensures Ids(packages, keep) == [] <==> forall j :: 0 <= j < |packages| ==> !keep(packages[j])
  {
    if packages != [] {
      NoIds(packages[..|packages| - 1], keep);
    }
  }

  lemma {:induction false} OneId(packages: seq<Package>, keep: Package -> bool)
    ensures |Ids(packages, keep)| == 1 <==> exists i: nat :: Only(packages, keep, i)
    ensures forall i: nat :: Only(packages, keep, i) ==> Ids(packages, keep) == [packages[i].id]
  {
    if packages != [] {
      var n := |packages| - 1;
      var front := packages[..n];
      NoIds(front, keep);
      OneId(front, keep);
      if keep(packages[n]) {
        assert Ids(front, keep) == [] ==> Only(packages, keep, n);
        forall i: nat | Only(packages, keep, i) ensures i == n && Ids(front, keep) == [] {
        }
      } else {
        forall i: nat ensures Only(packages, keep, i) <==> Only(front, keep, i) {
        }
      }
    }
  }

  // The package at position i is the one of the project with the site's name; and the one with the client's.
  predicate IsSite(context: Context, packages: seq<Package>, i: nat) {
    && i < |packages| && packages[i].name == context.sitePackage && packages[i].belowRoot
    && forall j :: 0 <= j < |packages| && packages[j].name == context.sitePackage && packages[j].belowRoot ==> j == i
  }

  predicate IsClient(context: Context, packages: seq<Package>, i: nat) {
    && i < |packages| && context.clientPackage == Some(packages[i].name)
    && forall j :: 0 <= j < |packages| && context.clientPackage == Some(packages[j].name) ==> j == i
  }

  // The search starts exactly when one package of the project has the site's name, and, where a client is
  // configured, one package has the client's name; it starts from their ids.
  lemma RootIdsIff(context: Context, metadata: Metadata)
    ensures var roots, packages := RootIds(context, metadata), metadata.packages;
      && (roots.Ok? <==>
            && (exists i: nat :: IsSite(context, packages, i))
            && (context.clientPackage.Some? ==> exists j: nat :: IsClient(context, packages, j)))
      && (roots == Err(SitePackageNotUnique) <==> !exists i: nat :: IsSite(context, packages, i))
      && (roots.Err? ==> roots.error in {SitePackageNotUnique, ClientPackageNotUnique})
      && (forall i: nat :: roots.Ok? && context.clientPackage.None? && IsSite(context, packages, i) ==>
            roots.value == [packages[i].id])
      && (forall i: nat, j: nat :: roots.Ok? && IsSite(context, packages, i) && IsClient(context, packages, j) ==>
            roots.value == [packages[i].id, packages[j].id])
  {
    var packages := metadata.packages;
    OneId(packages, SiteTest(context.sitePackage));
    forall i: nat ensures IsSite(context, packages, i) <==> Only(packages, SiteTest(context.sitePackage), i) {
    }
    if context.clientPackage.Some? {
      OneId(packages, ClientTest(context.clientPackage.value));
      forall j: nat ensures IsClient(context, packages, j) <==> Only(packages, ClientTest(context.clientPackage.value), j) {
      }
    }
    hide Only, Ids, IsSite, IsClient;
  }

  ghost predicate Edge(graph: map<string, seq<string>>, a: string, b: string) {
    a in graph && b in graph[a]
  }

  ghost predicate Path(graph: map<string, seq<string>>, roots: seq<string>, path: seq<string>) {
    && path != [] && path[0] in roots
    && forall i :: 0 < i < |path| ==> Edge(graph, path[i - 1], path[i])
  }

  // There is a dependency path from a root to the id.
  ghost predicate Reachable(graph: map<string, seq<string>>, roots: seq<string>, id: string) {
    exists path :: Path(graph, roots, path) && path[|path| - 1] == id
  }

  lemma ExtendPath(graph: map<string, seq<string>>, roots: seq<string>, a: string, b: string)
    requires Reachable(graph, roots, a) && Edge(graph, a, b)
    ensures Reachable(graph, roots, b)
  {
    var path :| Path(graph, roots, path) && path[|path| - 1] == a;
    assert Path(graph, roots, path + [b]);
  }

  ghost predicate Closed(graph: map<string, seq<string>>, ids: set<string>) {
    forall a, b :: a in ids && Edge(graph, a, b) ==> b in ids
  }

  lemma {:induction false} ClosedContainsPath(graph: map<string, seq<string>>, roots: seq<string>, ids: set<string>, path: seq<string>)
    requires Closed(graph, ids) && (forall r :: r in roots ==> r in ids) && Path(graph, roots, path)
    ensures path[|path| - 1] in ids
    decreases |path|
  {
    if |path| > 1 {
      var front := path[..|path| - 1];
      assert Path(graph, roots, front);
      ClosedContainsPath(graph, roots, ids, front);
      assert Edge(graph, path[|path| - 2], path[|path| - 1]);
    }
  }

  // Every id the search can ever meet.
  ghost function Universe(graph: map<string, seq<string>>, roots: seq<string>): set<string> {
    (set r | r in roots) + (set a, b | a in graph && b in graph[a] :: b)
  }

  ghost predicate EveryReachableHasNode(graph: map<string, seq<string>>, roots: seq<string>) {
    forall id :: Reachable(graph, roots, id) ==> id in graph
  }

  // Every id met so far is reachable, and whatever a visited id or the roots lead to has been met.
  ghost predicate WorklistOk(graph: map<string, seq<string>>, roots: seq<string>, reachable: set<string>, pending: seq<string>) {
    && (forall p :: p in pending ==> p in Universe(graph, roots) && Reachable(graph, roots, p))
    && (forall id :: id in reachable ==> id in graph && id in Universe(graph, roots) && Reachable(graph, roots, id))
    && (forall r :: r in roots ==> r in reachable || r in pending)
    && (forall a, b :: a in reachable && Edge(graph, a, b) ==> b in reachable || b in pending)
  }

  lemma SkipVisited(graph: map<string, seq<string>>, roots: seq<string>, reachable: set<string>, pending: seq<string>)
    requires WorklistOk(graph, roots, reachable, pending) && pending != [] && pending[|pending| - 1] in reachable
    ensures WorklistOk(graph, roots, reachable, pending[..|pending| - 1])
  {
    var rest := pending[..|pending| - 1];
    assert pending == rest + [pending[|pending| - 1]];
  }

  lemma EdgesReachable(graph: map<string, seq<string>>, roots: seq<string>, id: string)
    requires id in graph && Reachable(graph, roots, id)
    ensures forall d :: d in graph[id] ==> Reachable(graph, roots, d) && d in Universe(graph, roots)
  {
    forall d | d in graph[id] ensures Reachable(graph, roots, d) && d in Universe(graph, roots) {
      assert Edge(graph, id, d);
      ExtendPath(graph, roots, id, d);
    }
  }

  lemma VisitOk(graph: map<string, seq<string>>, roots: seq<string>, reachable: set<string>, rest: seq<string>, id: string)
    requires WorklistOk(graph, roots, reachable, rest + [id]) && id in graph
    ensures WorklistOk(graph, roots, reachable + {id}, rest + graph[id])
  {
    assert (rest + [id])[|rest|] == id;
    EdgesReachable(graph, roots, id);
    hide Reachable, Universe;
    assert forall r :: r in rest + [id] <==> r in rest || r == id;
    assert forall r :: r in rest + graph[id] <==> r in rest || r in graph[id];
  }

  lemma Visit(graph: map<string, seq<string>>, roots: seq<string>, reachable: set<string>, pending: seq<string>)
    requires WorklistOk(graph, roots, reachable, pending) && pending != []
    requires pending[|pending| - 1] !in reachable && pending[|pending| - 1] in graph
    ensures var id := pending[|pending| - 1];
      WorklistOk(graph, roots, reachable + {id}, pending[..|pending| - 1] + graph[id])
    ensures |Universe(graph, roots) - (reachable + {pending[|pending| - 1]})| < |Universe(graph, roots) - reachable|
  {
    var id := pending[|pending| - 1];
    assert id in pending && id in Universe(graph, roots);
    hide WorklistOk, Reachable, Universe;
    assert pending == pending[..|pending| - 1] + [id];
    VisitOk(graph, roots, reachable, pending[..|pending| - 1], id);
    var left := Universe(graph, roots) - reachable;
    assert left == (left - {id}) + {id} && Universe(graph, roots) - (reachable + {id}) == left - {id};
  }

  lemma WorklistStarts(graph: map<string, seq<string>>, roots: seq<string>)
    ensures WorklistOk(graph, roots, {}, roots)
  {
    forall r | r in roots ensures Reachable(graph, roots, r) {
      assert Path(graph, roots, [r]);
    }
  }

  lemma WorklistEnds(graph: map<string, seq<string>>, roots: seq<string>, reachable: set<string>)
    requires WorklistOk(graph, roots, reachable, [])
    ensures forall id :: id in reachable <==> Reachable(graph, roots, id)
    ensures EveryReachableHasNode(graph, roots)
  {
    assert Closed(graph, reachable);
    forall id | Reachable(graph, roots, id) ensures id in reachable {
      ReachableIsLeast(graph, roots, reachable, id);
    }
  }

  // The worklist: it ends on every graph, returns exactly the reachable ids, and fails exactly when some
  // reachable id has no node.
  method CollectReachable(graph: map<string, seq<string>>, roots: seq<string>) returns (result: Result<set<string>, Failure>)
    ensures result.Ok? <==> EveryReachableHasNode(graph, roots)
    ensures result.Ok? ==> forall id :: id in result.value <==> Reachable(graph, roots, id)
    ensures result.Err? ==> result.error.MissingNode?
    ensures result.Err? ==> Reachable(graph, roots, result.error.id) && result.error.id !in graph
  {
    var reachable: set<string> := {};
    var pending := roots;
    WorklistStarts(graph, roots);
    while |pending| > 0
      invariant WorklistOk(graph, roots, reachable, pending)
      decreases |Universe(graph, roots) - reachable|, |pending|
    {
      var id := pending[|pending| - 1];
      if id in reachable {
        SkipVisited(graph, roots, reachable, pending);
        pending := pending[..|pending| - 1];
      } else {
        if id !in graph {
          return Err(MissingNode(id));
        }
        Visit(graph, roots, reachable, pending);
        reachable := reachable + {id};
        pending := pending[..|pending| - 1] + graph[id];
      }
    }
    assert pending == [];
    WorklistEnds(graph, roots, reachable);
    result := Ok(reachable);
  }

  method ReachablePackageIds(context: Context, metadata: Metadata) returns (result: Result<set<string>, Failure>)
    ensures RootIds(context, metadata).Err? ==> result == Err(RootIds(context, metadata).error)
    ensures RootIds(context, metadata).Ok? && metadata.resolve.None? ==> result == Err(NoGraph)
    ensures RootIds(context, metadata).Ok? && metadata.resolve.Some? ==>
      var graph, roots := Graph(metadata.resolve.value), RootIds(context, metadata).value;
      && (result.Ok? <==> EveryReachableHasNode(graph, roots))
      && (result.Ok? ==> forall id :: id in result.value <==> Reachable(graph, roots, id))
  {
    var roots := RootIds(context, metadata);
    if roots.Err? {
      return Err(roots.error);
    }
    if metadata.resolve.None? {
      return Err(NoGraph);
    }
    result := CollectReachable(Graph(metadata.resolve.value), roots.value);
  }

  // A package set that is closed under dependencies and contains the roots contains everything reachable:
  // the result is the least such set.
  lemma ReachableIsLeast(graph: map<string, seq<string>>, roots: seq<string>, ids: set<string>, id: string)
    requires Closed(graph, ids) && (forall r :: r in roots ==> r in ids)
    requires Reachable(graph, roots, id)
    ensures id in ids
  {
    var path :| Path(graph, roots, path) && path[|path| - 1] == id;
    ClosedContainsPath(graph, roots, ids, path);
  }
}
