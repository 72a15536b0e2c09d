// What a successful verification says about the tree, and which trees verify (pliego-artifact, lib.rs).
module DiskExactness {
  import opened Prelude
  import opened Sums
  import opened Text
  import opened Sorting
  import opened Namespaces
  import opened Receipts
  import opened DiskTrees
  import opened DiskCounts
  import opened DiskLayouts
  import opened DiskNamespaces
  import opened PathPrefixes
  import opened DiskVerification

  // ---- The outputs of a valid report, as the oracle sees them ----------------------------------------

  // The ledger's own name is canonical.
  predicate LedgerParses(parse: Parser, name: string) {
    name == BUILD_LEDGER_NAME ==> Canonical(parse, name)
  }

  // What is asked of the parser; PortableIsStable says that the portable one has the first property.
  ghost predicate Stable(parse: Parser) {
    PrefixStable(parse) && forall name :: LedgerParses(parse, name)
  }

  function PathAt(env: Environment, files: seq<OutputFile>, i: nat): PortablePath
    requires OutputsOk(env, files) && i < |files|
  {
    assert OutputFileOk(env, files[i]);
    env.parse(files[i].path).value
  }

  lemma {:induction false} EntriesAt(
    parse: Parser, front: seq<Entry>, files: seq<OutputFile>, n: nat)
    requires n <= |files| && forall i :: 0 <= i < |files| ==> parse(files[i].path).Ok?
    ensures var entries := EntriesTo(parse, front, files, OutputPath, OutputOwner, n);
      && |entries| == |front| + n && front <= entries
      && forall i :: 0 <= i < n ==> entries[|front| + i].path == parse(files[i].path).value
  {
    if n > 0 {
      EntriesAt(parse, front, files, n - 1);
    }
  }

  // The entries accepted for the outputs: the ledger first, then one per file.
  lemma AcceptedEntries(env: Environment, files: seq<OutputFile>) returns (entries: seq<Entry>)
    requires OutputsOk(env, files)
    ensures Fits(entries) && |entries| == |files| + 1
    ensures env.parse(BUILD_LEDGER_NAME).Ok? && entries[0].path == env.parse(BUILD_LEDGER_NAME).value
    ensures forall i :: 0 <= i < |files| ==> entries[i + 1].path == PathAt(env, files, i)
  {
    forall i | 0 <= i < |files| ensures env.parse(files[i].path).Ok? {
      assert OutputFileOk(env, files[i]);
    }
    OutputRunFits(env.parse, files);
    entries := OutputEntries(env.parse, files);
    EntriesAt(env.parse, [Entry(env.parse(BUILD_LEDGER_NAME).value, "framework ledger")], files, |files|);
  }

  lemma OutputsPairwise(env: Environment, files: seq<OutputFile>, i: nat, j: nat)
    requires OutputsOk(env, files) && i < |files| && j < |files| && i != j
    ensures PairOk(PathAt(env, files, i), PathAt(env, files, j))
  {
    var entries := AcceptedEntries(env, files);
    if i < j {
      assert PairOk(entries[i + 1].path, entries[j + 1].path);
    } else {
      assert PairOk(entries[j + 1].path, entries[i + 1].path);
      PairOkSymmetric(entries[j + 1].path, entries[i + 1].path);
    }
  }

  lemma FirstPair(entries: seq<Entry>, i: nat)
    requires Fits(entries) && 0 < i < |entries|
    ensures entries[0].path.collisionKey != entries[i].path.collisionKey
  {
    assert PairOk(entries[0].path, entries[i].path);
  }

  lemma LedgerApart(env: Environment, files: seq<OutputFile>, i: nat)
    requires OutputsOk(env, files) && i < |files|
    ensures files[i].path != BUILD_LEDGER_NAME
  {
    var entries := AcceptedEntries(env, files);
    FirstPair(entries, i + 1);
    assert entries[i + 1].path == PathAt(env, files, i);
  }

  lemma LedgerNotDeclared(env: Environment, files: seq<OutputFile>)
    requires OutputsOk(env, files)
    ensures BUILD_LEDGER_NAME !in Declared(files)
  {
    forall i | 0 <= i < |files| ensures files[i].path != BUILD_LEDGER_NAME {
      LedgerApart(env, files, i);
    }
  }

  // ---- The files fit ---------------------------------------------------------------------------------

  lemma {:induction false} ComponentsOfTail(a: seq<Entry>, b: seq<Entry>, n: nat)
    requires n <= |b| && |a| == |b| + 1 && forall i :: 0 <= i < |b| ==> a[i + 1].path == b[i].path
    ensures TotalComponents(b[..n]) + Length(a[0].path) == TotalComponents(a[..n + 1])
  {
    if n == 0 {
      assert a[..1] == [a[0]];
      TotalComponentsOne(a[0]);
    } else {
      ComponentsOfTail(a, b, n - 1);
      assert b[..n][..n - 1] == b[..n - 1] && a[..n + 1][..n] == a[..n];
    }
  }

  lemma FitsTail(a: seq<Entry>, b: seq<Entry>)
    requires Fits(a) && |a| == |b| + 1 && forall i :: 0 <= i < |b| ==> a[i + 1].path == b[i].path
    ensures Fits(b)
  {
    forall i, j | 0 <= i < j < |b| ensures PairOk(b[i].path, b[j].path) {
      assert PairOk(a[i + 1].path, a[j + 1].path);
    }
    ComponentsOfTail(a, b, |b|);
    assert a[..|b| + 1] == a && b[..|b|] == b;
    DirectoriesOfTail(a, b);
    SumSubset(AllDirectories(b), AllDirectories(a), PairBytes);
  }

  lemma DirectoriesOfTail(a: seq<Entry>, b: seq<Entry>)
    requires |a| == |b| + 1 && forall i :: 0 <= i < |b| ==> a[i + 1].path == b[i].path
    ensures AllDirectories(b) <= AllDirectories(a)
  {
    forall d | d in AllDirectories(b) ensures d in AllDirectories(a) {
      var i :| 0 <= i < |b| && d in Directories(b[i].path);
      assert d in Directories(a[i + 1].path);
    }
  }

  lemma {:induction false} DistinctIndices(s: seq<string>)
    requires forall i, j :: 0 <= i < |s| && 0 <= j < |s| && s[i] == s[j] ==> i == j
    ensures Distinct(s)
  {
    if s != [] {
      var front, last := s[..|s| - 1], s[|s| - 1];
      forall i, j | 0 <= i < |front| && 0 <= j < |front| && front[i] == front[j] ensures i == j {
        assert s[i] == s[j];
      }
      DistinctIndices(front);
      CountMember(front, last);
      forall x ensures Count(s, x) <= 1 {
        assert Count(front, x) <= 1;
      }
    }
  }

  lemma OutputsEnumerate(env: Environment, files: seq<OutputFile>)
    requires OutputsOk(env, files)
    ensures Enumerates(OutputPaths(files), Declared(files)) && AllCanonical(env.parse, OutputPaths(files))
  {
    var order := OutputPaths(files);
    forall i, j | 0 <= i < |order| && 0 <= j < |order| && order[i] == order[j] ensures i == j {
      StrictDistinct(files, OutputPath, i, j);
    }
    DistinctIndices(order);
    forall i | 0 <= i < |order| ensures Canonical(env.parse, order[i]) {
      assert OutputFileOk(env, files[i]);
    }
  }

  lemma OutputsFit(env: Environment, files: seq<OutputFile>)
    requires OutputsOk(env, files)
    ensures FilesFit(env.parse, Declared(files))
  {
    OutputsEnumerate(env, files);
    var entries := AcceptedEntries(env, files);
    forall i | 0 <= i < |files|
      ensures entries[i + 1].path == DiskEntries(env.parse, OutputPaths(files))[i].path
    {
      assert DiskEntries(env.parse, OutputPaths(files))[i] == DiskEntry(env.parse, files[i].path);
      assert PathAt(env, files, i) == env.parse(files[i].path).value;
    }
    FitsTail(entries, DiskEntries(env.parse, OutputPaths(files)));
  }

  // ---- Their directories fit -------------------------------------------------------------------------

  ghost predicate Ancestor(files: seq<OutputFile>, directory: string, i: nat, k: nat) {
    i < |files| && 1 <= k < |Split(files[i].path)| && directory == Join(Split(files[i].path)[..k])
  }

  ghost predicate IsStrictAncestor(files: seq<OutputFile>, directory: string) {
    exists i: nat, k: nat :: Ancestor(files, directory, i, k)
  }

  lemma AncestorParses(env: Environment, files: seq<OutputFile>, directory: string, i: nat, k: nat)
    requires Stable(env.parse) && OutputsOk(env, files) && Ancestor(files, directory, i, k)
    ensures var p := PathAt(env, files, i);
      && k < Length(p) && directory == DirSpelling(p, k)
      && env.parse(directory) == Ok(PathParts(directory, DirKey(p, k), p.componentKeys[..k]))
  {
    assert OutputFileOk(env, files[i]);
    assert FrontParses(env.parse, files[i].path, k);
  }

  lemma AncestorAgrees(env: Environment, files: seq<OutputFile>, i: nat, k: nat, j: nat)
    requires OutputsOk(env, files) && i < |files| && j < |files| && 1 <= k < Length(PathAt(env, files, i))
    ensures DirKey(PathAt(env, files, i), k) != PathAt(env, files, j).collisionKey
    ensures forall m :: 1 <= m < Length(PathAt(env, files, j)) && DirKey(PathAt(env, files, j), m) == DirKey(PathAt(env, files, i), k) ==>
      DirSpelling(PathAt(env, files, j), m) == DirSpelling(PathAt(env, files, i), k)
  {
    var p, q := PathAt(env, files, i), PathAt(env, files, j);
    if i == j {
      FileIsNoDirectoryOfItself(p);
      assert IsDirectoryOf(DirKey(p, k), p);
      forall m | 1 <= m < Length(p) && DirKey(p, m) == DirKey(p, k) ensures m == k {
        if m < k {
          DirKeysDiffer(p, m, k);
        } else if k < m {
          DirKeysDiffer(p, k, m);
        }
      }
    } else {
      OutputsPairwise(env, files, i, j);
      assert IsDirectoryOf(DirKey(p, k), p);
    }
  }

  lemma AncestorFits(env: Environment, files: seq<OutputFile>, directory: string)
    requires Stable(env.parse) && OutputsOk(env, files) && IsStrictAncestor(files, directory)
    requires forall f :: f in Declared(files) ==> Canonical(env.parse, f)
    ensures DirectoryFits(env.parse, Declared(files), directory)
  {
    var i: nat, k: nat :| Ancestor(files, directory, i, k);
    AncestorParses(env, files, directory, i, k);
    forall f | f in Declared(files) ensures DirectoryAgrees(env.parse(directory).value, env.parse(f).value) {
      var j :| 0 <= j < |files| && files[j].path == f;
      AncestorAgrees(env, files, i, k, j);
    }
  }

  lemma AncestorKeysDiffer(env: Environment, files: seq<OutputFile>, d: string, e: string)
    requires Stable(env.parse) && OutputsOk(env, files) && IsStrictAncestor(files, d) && IsStrictAncestor(files, e)
    requires d != e
    ensures env.parse(d).Ok? && env.parse(e).Ok? && env.parse(d).value.collisionKey != env.parse(e).value.collisionKey
  {
    var i: nat, k: nat :| Ancestor(files, d, i, k);
    var j: nat, m: nat :| Ancestor(files, e, j, m);
    AncestorParses(env, files, d, i, k);
    AncestorParses(env, files, e, j, m);
    AncestorAgrees(env, files, i, k, j);
  }

  lemma AncestorsFit(env: Environment, files: seq<OutputFile>, directories: set<string>)
    requires Stable(env.parse) && OutputsOk(env, files)
    requires forall d :: d in directories ==> IsStrictAncestor(files, d)
    requires forall f :: f in Declared(files) ==> Canonical(env.parse, f)
    ensures ExplicitDirectoriesFit(env.parse, Declared(files), directories)
  {
    forall d | d in directories ensures DirectoryFits(env.parse, Declared(files), d) {
      AncestorFits(env, files, d);
    }
    forall d, e | d in directories && e in directories && d != e
      ensures env.parse(d).Ok? && env.parse(e).Ok? && env.parse(d).value.collisionKey != env.parse(e).value.collisionKey
    {
      AncestorKeysDiffer(env, files, d, e);
    }
  }

  // ---- The expected directories can be stored --------------------------------------------------------

  lemma {:induction false} ExpectedComponents(paths: seq<string>, entries: seq<Entry>, n: nat)
    requires n <= |paths| && |entries| == |paths| + 1
    requires forall i :: 0 <= i < |paths| ==> Length(entries[i + 1].path) == |Split(paths[i])|
    ensures ComponentsTo(paths, n) <= TotalComponents(entries[..n + 1])
  {
    if n > 0 {
      ExpectedComponents(paths, entries, n - 1);
      assert entries[..n + 1][..n] == entries[..n];
      assert Length(entries[n].path) == |Split(paths[n - 1])|;
    }
  }

  lemma {:induction false} AncestorsMembers(files: seq<OutputFile>, n: nat, directory: string)
    requires n <= |files|
    ensures directory in AncestorsTo(OutputPaths(files), n) <==> exists i: nat, k: nat :: i < n && Ancestor(files, directory, i, k)
  {
    if n > 0 {
      AncestorsMembers(files, n - 1, directory);
      var parts := Split(files[n - 1].path);
      if directory in AncestorsOf(parts, |parts|) {
        var k :| 1 <= k < |parts| && directory == Join(parts[..k]);
        assert Ancestor(files, directory, n - 1, k);
      }
    }
  }

  lemma {:induction false} FewAncestors(parts: seq<string>, n: nat)
    requires n <= |parts|
    ensures |AncestorsOf(parts, n)| <= n
  {
    if n <= 1 {
      assert AncestorsOf(parts, n) == {};
    } else {
      FewAncestors(parts, n - 1);
      assert AncestorsOf(parts, n) == AncestorsOf(parts, n - 1) + {Join(parts[..n - 1])};
    }
  }

  lemma {:induction false} FewDirectories(paths: seq<string>, n: nat)
    requires n <= |paths|
    ensures |AncestorsTo(paths, n)| <= ComponentsTo(paths, n)
  {
    hide AncestorsOf, Split;
    if n > 0 {
      FewDirectories(paths, n - 1);
      FewNext(paths, n - 1);
    }
  }

  lemma FewNext(paths: seq<string>, n: nat)
    requires n < |paths| && |AncestorsTo(paths, n)| <= ComponentsTo(paths, n)
    ensures |AncestorsTo(paths, n + 1)| <= ComponentsTo(paths, n + 1)
  {
    FewMore(AncestorsTo(paths, n), Split(paths[n]));
  }

  lemma FewMore(directories: set<string>, parts: seq<string>)
    ensures |directories + AncestorsOf(parts, |parts|)| <= |directories| + |parts|
  {
    FewAncestors(parts, |parts|);
    UnionSize(directories, AncestorsOf(parts, |parts|));
  }

  lemma UnionSize<T>(a: set<T>, b: set<T>)
    ensures |a + b| <= |a| + |b|
  {
    assert |a + b| + |a * b| == |a| + |b|;
  }

  function KeyAndSpelling(parse: Parser): string -> (string, string) {
    (d: string) => (if parse(d).Ok? then parse(d).value.collisionKey else "", d)
  }

  // The stored bytes of an ancestor are those of its pair in the index.
  lemma AncestorCost(env: Environment, files: seq<OutputFile>, directory: string, i: nat, k: nat)
    requires Stable(env.parse) && OutputsOk(env, files) && Ancestor(files, directory, i, k)
    ensures var p := PathAt(env, files, i);
      && k < Length(p) && env.parse(directory).Ok?
      && KeyAndSpelling(env.parse)(directory) == (DirKey(p, k), DirSpelling(p, k))
      && PrefixCost(env.parse)(directory) == PairBytes((DirKey(p, k), DirSpelling(p, k)))
  {
    AncestorParses(env, files, directory, i, k);
  }

  lemma InAllDirectories(entries: seq<Entry>, p: PortablePath, i: nat, k: nat)
    requires i < |entries| && entries[i].path == p && 1 <= k < Length(p)
    ensures (DirKey(p, k), DirSpelling(p, k)) in AllDirectories(entries)
  {
    assert (DirKey(p, k), DirSpelling(p, k)) in Directories(entries[i].path);
  }

  lemma AncestorStored(env: Environment, files: seq<OutputFile>, entries: seq<Entry>, directory: string)
    requires Stable(env.parse) && OutputsOk(env, files) && directory in AncestorsTo(OutputPaths(files), |files|)
    requires |entries| == |files| + 1 && forall i :: 0 <= i < |files| ==> entries[i + 1].path == PathAt(env, files, i)
    ensures env.parse(directory).Ok? && KeyAndSpelling(env.parse)(directory) in AllDirectories(entries)
    ensures PrefixCost(env.parse)(directory) == PairBytes(KeyAndSpelling(env.parse)(directory))
  {
    AncestorsMembers(files, |files|, directory);
    var i: nat, k: nat :| i < |files| && Ancestor(files, directory, i, k);
    AncestorCost(env, files, directory, i, k);
    InAllDirectories(entries, PathAt(env, files, i), i + 1, k);
  }

  lemma StoredFits(parse: Parser, directories: set<string>, entries: seq<Entry>)
    requires forall d :: d in directories ==>
      && parse(d).Ok? && KeyAndSpelling(parse)(d) in AllDirectories(entries)
      && PrefixCost(parse)(d) == PairBytes(KeyAndSpelling(parse)(d))
    ensures AllParse(parse, directories)
    ensures Sum(directories, PrefixCost(parse)) <= Sum(AllDirectories(entries), PairBytes)
  {
    SumInjective(directories, AllDirectories(entries), PrefixCost(parse), PairBytes, KeyAndSpelling(parse));
  }

  lemma OutputComponents(env: Environment, files: seq<OutputFile>, i: nat)
    requires OutputsOk(env, files) && i < |files|
    ensures Length(PathAt(env, files, i)) == |Split(OutputPaths(files)[i])|
  {
    assert OutputFileOk(env, files[i]);
  }

  lemma FittingTotals(entries: seq<Entry>)
    requires Fits(entries)
    ensures TotalComponents(entries) <= MAX_NAMESPACE_COMPONENTS
    ensures Sum(AllDirectories(entries), PairBytes) <= MAX_NAMESPACE_PREFIX_BYTES
  {
  }

  // The accepted entries once more, with their totals in place of their pairwise fit.
  lemma AcceptedTotals(env: Environment, files: seq<OutputFile>) returns (entries: seq<Entry>)
    requires OutputsOk(env, files)
    ensures |entries| == |files| + 1 && forall i :: 0 <= i < |files| ==> entries[i + 1].path == PathAt(env, files, i)
    ensures TotalComponents(entries) <= MAX_NAMESPACE_COMPONENTS
    ensures Sum(AllDirectories(entries), PairBytes) <= MAX_NAMESPACE_PREFIX_BYTES
  {
    entries := AcceptedEntries(env, files);
    FittingTotals(entries);
  }

  lemma EntryLength(env: Environment, files: seq<OutputFile>, entries: seq<Entry>, i: nat)
    requires OutputsOk(env, files) && i < |files| && |entries| == |files| + 1
    requires entries[i + 1].path == PathAt(env, files, i)
    ensures Length(entries[i + 1].path) == |Split(OutputPaths(files)[i])|
  {
    OutputComponents(env, files, i);
  }

  lemma ExpectedTotal(paths: seq<string>, entries: seq<Entry>)
    requires |entries| == |paths| + 1
    requires forall i :: 0 <= i < |paths| ==> Length(entries[i + 1].path) == |Split(paths[i])|
    ensures ComponentsTo(paths, |paths|) <= TotalComponents(entries)
  {
    ExpectedComponents(paths, entries, |paths|);
    assert entries[..|paths| + 1] == entries;
  }

  lemma ExpectedFits(env: Environment, files: seq<OutputFile>)
    requires Stable(env.parse) && OutputsOk(env, files)
    ensures ExpectedOk(env.parse, OutputPaths(files), |files|)
  {
    var entries := AcceptedTotals(env, files);
    forall i | 0 <= i < |files| ensures Length(entries[i + 1].path) == |Split(OutputPaths(files)[i])| {
      EntryLength(env, files, entries, i);
    }
    ExpectedTotal(OutputPaths(files), entries);
    FewDirectories(OutputPaths(files), |files|);
    forall d | d in AncestorsTo(OutputPaths(files), |files|)
      ensures env.parse(d).Ok? && KeyAndSpelling(env.parse)(d) in AllDirectories(entries)
      ensures PrefixCost(env.parse)(d) == PairBytes(KeyAndSpelling(env.parse)(d))
    {
      AncestorStored(env, files, entries, d);
    }
    StoredFits(env.parse, AncestorsTo(OutputPaths(files), |files|), entries);
  }

  // ---- Exact trees -----------------------------------------------------------------------------------

  predicate PlainEntry(e: Dirent) {
    e.utf8 && (e.node.File? || e.node.Directory?)
  }

  // No links, no special files, no names that are not text, anywhere.
  ghost predicate Plain(entries: seq<Dirent>) {
    forall parts :: parts != [] && Lookup(entries, parts).Some? ==> PlainEntry(Lookup(entries, parts).value)
  }

  // The tree holds the declared files, the ledger, the directories above the declared files, and nothing else;
  // every declared file is a singly linked regular file with the declared size and hash.
  ghost predicate Exact(disk: Disk, entries: seq<Dirent>, files: seq<OutputFile>) {
    && Plain(entries)
    && (forall path :: IsFile(entries, path) && path != BUILD_LEDGER_NAME <==> path in Declared(files))
    && (forall path :: IsDirectory(entries, path) <==> IsStrictAncestor(files, path))
    && ContentsOk(disk, entries, files)
  }

  lemma FoundAt(entries: seq<Dirent>, parts: seq<string>)
    requires FileSystem(entries) && parts != [] && Lookup(entries, parts).Some?
    ensures Split(Join(parts)) == parts && [] + parts == parts
  {
    FoundName(entries, parts);
    SplitPath([], parts);
    assert [] + parts == parts;
  }

  // In an exact tree every path is canonical.
  lemma ExactIsRegular(disk: Disk, entries: seq<Dirent>, files: seq<OutputFile>)
    requires Stable(disk.env.parse) && OutputsOk(disk.env, files)
    requires FileSystem(entries) && Exact(disk, entries, files)
    ensures AllRegular(disk.env.parse, [], entries)
  {
    forall parts | parts != [] && Lookup(entries, parts).Some?
      ensures Regular(disk.env.parse, Join([] + parts), Lookup(entries, parts).value)
    {
      FoundAt(entries, parts);
      CanonicalInExact(disk, entries, files, Join(parts));
    }
  }

  lemma CanonicalInExact(disk: Disk, entries: seq<Dirent>, files: seq<OutputFile>, path: string)
    requires Stable(disk.env.parse) && OutputsOk(disk.env, files)
    requires Exact(disk, entries, files) && Lookup(entries, Split(path)).Some?
    ensures Canonical(disk.env.parse, path)
  {
    if IsFile(entries, path) {
      if path == BUILD_LEDGER_NAME {
        assert LedgerParses(disk.env.parse, path);
      } else {
        var i :| 0 <= i < |files| && files[i].path == path;
        assert OutputFileOk(disk.env, files[i]);
      }
    } else {
      assert PlainEntry(Lookup(entries, Split(path)).value);
      assert IsDirectory(entries, path);
      var i: nat, k: nat :| Ancestor(files, path, i, k);
      AncestorParses(disk.env, files, path, i, k);
    }
  }

  lemma ExactListing(disk: Disk, entries: seq<Dirent>, files: seq<OutputFile>)
    requires Stable(disk.env.parse) && OutputsOk(disk.env, files)
    requires FileSystem(entries) && Exact(disk, entries, files)
    ensures var l := List(disk.env.parse, [], entries);
      && l.ok && l.files == Declared(files)
      && forall d :: d in l.directories <==> IsStrictAncestor(files, d)
  {
    ExactIsRegular(disk, entries, files);
    ListOkIff(disk.env.parse, [], entries);
    forall path ensures path in List(disk.env.parse, [], entries).files <==> path in Declared(files) {
      ListedAtRoot(disk.env.parse, entries, path, true);
    }
    forall path ensures path in List(disk.env.parse, [], entries).directories <==> IsStrictAncestor(files, path) {
      ListedAtRoot(disk.env.parse, entries, path, false);
    }
  }

  lemma ExactMatches(disk: Disk, entries: seq<Dirent>, files: seq<OutputFile>)
    requires Stable(disk.env.parse) && OutputsOk(disk.env, files)
    requires FileSystem(entries) && Exact(disk, entries, files) && WithinLimits(List(disk.env.parse, [], entries))
    ensures TreeMatches(disk, entries, files)
  {
    var l := List(disk.env.parse, [], entries);
    ExactListing(disk, entries, files);
    ListedCanonical(disk.env.parse, entries);
    OutputsFit(disk.env, files);
    AncestorsFit(disk.env, files, l.directories);
    ExpectedFits(disk.env, files);
    forall d | d in l.directories ensures d in AncestorsTo(OutputPaths(files), |files|) {
      var i: nat, k: nat :| Ancestor(files, d, i, k);
      AncestorsMembers(files, |files|, d);
    }
  }

  lemma MatchesIsPlain(disk: Disk, entries: seq<Dirent>, files: seq<OutputFile>)
    requires FileSystem(entries) && TreeAgrees(disk, entries, files)
    ensures Plain(entries)
  {
    forall parts | parts != [] && Lookup(entries, parts).Some? ensures PlainEntry(Lookup(entries, parts).value) {
      FoundIsListed(disk.env.parse, [], entries, parts);
    }
  }

  // The directory above a declared file is on disk, because the file is.
  lemma AncestorOnDisk(entries: seq<Dirent>, path: string, k: nat)
    requires FileSystem(entries) && IsFile(entries, path) && 1 <= k < |Split(path)|
    ensures IsDirectory(entries, Join(Split(path)[..k]))
  {
    AncestorIsDirectory(entries, Split(path), k);
    FoundAt(entries, Split(path)[..k]);
  }

  lemma MatchesFiles(disk: Disk, entries: seq<Dirent>, files: seq<OutputFile>, path: string)
    requires FileSystem(entries) && TreeAgrees(disk, entries, files)
    ensures IsFile(entries, path) && path != BUILD_LEDGER_NAME <==> path in Declared(files)
  {
    ListedAtRoot(disk.env.parse, entries, path, true);
  }

  lemma MatchesDirectories(disk: Disk, entries: seq<Dirent>, files: seq<OutputFile>, path: string)
    requires FileSystem(entries) && TreeAgrees(disk, entries, files)
    ensures IsDirectory(entries, path) <==> IsStrictAncestor(files, path)
  {
    if IsDirectory(entries, path) {
      ListedAtRoot(disk.env.parse, entries, path, false);
      AncestorsMembers(files, |files|, path);
      var i: nat, k: nat :| i < |files| && Ancestor(files, path, i, k);
    }
    if IsStrictAncestor(files, path) {
      var i: nat, k: nat :| Ancestor(files, path, i, k);
      MatchesFiles(disk, entries, files, files[i].path);
      assert files[i].path in Declared(files);
      AncestorOnDisk(entries, files[i].path, k);
    }
  }

  lemma MatchesIsExact(disk: Disk, entries: seq<Dirent>, files: seq<OutputFile>)
    requires FileSystem(entries) && TreeAgrees(disk, entries, files)
    ensures Exact(disk, entries, files)
  {
    MatchesIsPlain(disk, entries, files);
    forall path ensures IsFile(entries, path) && path != BUILD_LEDGER_NAME <==> path in Declared(files) {
      MatchesFiles(disk, entries, files, path);
    }
    forall path ensures IsDirectory(entries, path) <==> IsStrictAncestor(files, path) {
      MatchesDirectories(disk, entries, files, path);
    }
  }

  // ---- The limits, read off the report ---------------------------------------------------------------

  // The directories that the declared files imply.
  function Implied(files: seq<OutputFile>): set<string> {
    AncestorsTo(OutputPaths(files), |files|)
  }

  // The declared files, the directories above them and the ledger stay within the limits of a layout.
  ghost predicate LayoutWithin(files: seq<OutputFile>) {
    && |files| + |Implied(files)| + 1 <= MAX_ARTIFACT_FILES
    && Sum(Declared(files), ComponentsOf()) + Sum(Implied(files), ComponentsOf()) <= MAX_NAMESPACE_COMPONENTS
    && Sum(Declared(files), SizeOf()) + Sum(Implied(files), SizeOf()) <= MAX_NAMESPACE_PREFIX_BYTES
  }

  function DeclaredTo(files: seq<OutputFile>, n: nat): set<string>
    requires n <= |files|
  {
    set i | 0 <= i < n :: files[i].path
  }

  lemma {:induction false} DeclaredSize(files: seq<OutputFile>, n: nat)
    requires StrictlyOrdered(files, OutputPath) && n <= |files|
    ensures |DeclaredTo(files, n)| == n
  {
    if n > 0 {
      DeclaredSize(files, n - 1);
      forall i | 0 <= i < n - 1 ensures files[i].path != files[n - 1].path {
        if files[i].path == files[n - 1].path {
          StrictDistinct(files, OutputPath, i, n - 1);
        }
      }
      assert DeclaredTo(files, n) == DeclaredTo(files, n - 1) + {files[n - 1].path};
    }
  }

  lemma ImpliedAreAncestors(files: seq<OutputFile>, directories: set<string>)
    requires forall d :: d in directories <==> IsStrictAncestor(files, d)
    ensures directories == Implied(files)
  {
    forall d ensures d in directories <==> d in Implied(files) {
      AncestorsMembers(files, |files|, d);
      if d in Implied(files) {
        var i: nat, k: nat :| i < |files| && Ancestor(files, d, i, k);
      }
      if IsStrictAncestor(files, d) {
        var i: nat, k: nat :| Ancestor(files, d, i, k);
      }
    }
  }

  // In an exact tree the limits of the layout depend on the report alone.
  lemma LimitsOnReport(disk: Disk, entries: seq<Dirent>, files: seq<OutputFile>)
    requires Stable(disk.env.parse) && OutputsOk(disk.env, files) && FileSystem(entries) && LedgerOk(disk, entries)
    requires Exact(disk, entries, files)
    ensures WithinLimits(List(disk.env.parse, [], entries)) <==> LayoutWithin(files)
  {
    var l := List(disk.env.parse, [], entries);
    ExactListing(disk, entries, files);
    ImpliedAreAncestors(files, l.directories);
    ListCounted(disk.env.parse, [], entries);
    LedgersAtRoot(entries);
    DeclaredSize(files, |files|);
    assert Declared(files) == DeclaredTo(files, |files|);
    CountsWithin(l, files);
  }

  lemma CountsWithin(l: Listing, files: seq<OutputFile>)
    requires l.files == Declared(files) && l.directories == Implied(files) && |Declared(files)| == |files| && Counted(l, 1)
    ensures WithinLimits(l) <==> LayoutWithin(files)
  {
    hide Sum, Declared, Implied;
  }

  // Verification succeeds exactly on the trees whose ledger reads as a valid report, that hold exactly what it
  // declares, provided that stays within the layout limits.
  lemma VerifiedIffExact(disk: Disk, root: Node)
    requires Stable(disk.env.parse) && root.Directory? && FileSystem(root.entries)
    ensures Verified(disk, root) <==>
      && LedgerOk(disk, root.entries)
      && Exact(disk, root.entries, ReportOn(disk, root.entries).receipt.outputs.files)
      && LayoutWithin(ReportOn(disk, root.entries).receipt.outputs.files)
  {
    if LedgerOk(disk, root.entries) {
      var files := ReportOn(disk, root.entries).receipt.outputs.files;
      if TreeMatches(disk, root.entries, files) {
        MatchesIsExact(disk, root.entries, files);
      }
      if Exact(disk, root.entries, files) {
        LimitsOnReport(disk, root.entries, files);
        if LayoutWithin(files) {
          ExactMatches(disk, root.entries, files);
        }
      }
    }
  }

  // The collection counts the ledger and the directories too, so a report with as many outputs as a valid
  // report may have is verified by no tree.
  lemma FullReportNeverVerified(disk: Disk, root: Node)
    requires Stable(disk.env.parse) && root.Directory? && FileSystem(root.entries) && LedgerOk(disk, root.entries)
    requires |ReportOn(disk, root.entries).receipt.outputs.files| == MAX_ARTIFACT_FILES
    ensures !Verified(disk, root)
  {
    VerifiedIffExact(disk, root);
  }
}
