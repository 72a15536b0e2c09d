// verify_build_report: a tree on disk against the report it carries (pliego-artifact, lib.rs).
//
// Decoding a ledger and hashing a file are uninterpreted.  A tree does not change while it is verified.
module DiskVerification {
  import opened Prelude
  import opened Sums
  import opened Text
  import opened Sorting
  import opened Namespaces
  import opened Receipts
  import opened DiskTrees
  import opened DiskLayouts
  import opened DiskNamespaces
  import opened PathPrefixes

  const MAX_LEDGER_BYTES: nat := 8388608

  datatype Disk = Disk(
    env: Environment,
    decode: Bytes -> Result<BuildReport, ArtifactError>,
    hash: Bytes -> string)

  // ---- The directories the outputs imply -------------------------------------------------------------

  // The strict ancestors of one path, given by its components, below level n.
  function AncestorsOf(parts: seq<string>, n: nat): set<string>
    requires n <= |parts|
  {
    set k | 1 <= k < n :: Join(parts[..k])
  }

  function AncestorsTo(paths: seq<string>, n: nat): set<string>
    requires n <= |paths|
  {
    if n == 0 then {} else AncestorsTo(paths, n - 1) + AncestorsOf(Split(paths[n - 1]), |Split(paths[n - 1])|)
  }

  function ComponentsTo(paths: seq<string>, n: nat): nat
    requires n <= |paths|
  {
    if n == 0 then 0 else ComponentsTo(paths, n - 1) + |Split(paths[n - 1])|
  }

  function PrefixCost(parse: Parser): string -> nat {
    (directory: string) =>
      if parse(directory).Ok? then |parse(directory).value.value| + |parse(directory).value.collisionKey| else 0
  }

  ghost predicate AllParse(parse: Parser, directories: set<string>) {
    forall d :: d in directories ==> parse(d).Ok?
  }

  // The stored directories stay within their limits.
  ghost predicate Storable(parse: Parser, directories: set<string>) {
    && AllParse(parse, directories)
    && Sum(directories, PrefixCost(parse)) <= MAX_NAMESPACE_PREFIX_BYTES
    && |directories| <= MAX_NAMESPACE_COMPONENTS
  }

  lemma {:induction false} SubsetSize<T>(a: set<T>, b: set<T>)
    requires a <= b
    ensures |a| <= |b|
  {
    if a != {} {
      var x :| x in a;
      SubsetSize(a - {x}, b - {x});
    }
  }

  lemma StorableSubset(parse: Parser, a: set<string>, b: set<string>)
    requires a <= b && Storable(parse, b)
    ensures Storable(parse, a)
  {
    SumSubset(a, b, PrefixCost(parse));
    SubsetSize(a, b);
  }

  // One round of the inner loop.
  method AddAncestor(parse: Parser, directories: set<string>, prefixBytes: nat, prefix: string)
    returns (error: Option<ArtifactError>, more: set<string>, bytes: nat)
    requires Storable(parse, directories) && prefixBytes == Sum(directories, PrefixCost(parse))
    ensures error.None? <==> Storable(parse, directories + {prefix})
    ensures error.None? ==> more == directories + {prefix} && bytes == Sum(more, PrefixCost(parse))
  {
    more, bytes := directories, prefixBytes;
    if prefix in directories {
      assert directories + {prefix} == directories;
    } else {
      var portable := parse(prefix);
      if portable.Err? {
        assert prefix in directories + {prefix};
        return Some(portable.error), more, bytes;
      }
      SumAdd(directories, PrefixCost(parse), prefix);
      bytes := prefixBytes + |portable.value.value| + |portable.value.collisionKey|;
      if bytes > MAX_NAMESPACE_PREFIX_BYTES {
        return Some(InvalidReceipt), more, bytes;
      }
      more := directories + {prefix};
    }
    if |more| > MAX_NAMESPACE_COMPONENTS {
      return Some(InvalidReceipt), more, bytes;
    }
    return None, more, bytes;
  }

  function With(directories: set<string>, parts: seq<string>, n: nat): set<string>
    requires n <= |parts|
  {
    directories + AncestorsOf(parts, n)
  }

  lemma WithNext(directories: set<string>, parts: seq<string>, n: nat)
    requires 1 <= n < |parts|
    ensures With(directories, parts, n + 1) == With(directories, parts, n) + {Join(parts[..n])}
  {
    assert AncestorsOf(parts, n + 1) == AncestorsOf(parts, n) + {Join(parts[..n])};
  }

  method AddAncestors(parse: Parser, directories: set<string>, prefixBytes: nat, parts: seq<string>)
    returns (error: Option<ArtifactError>, more: set<string>, bytes: nat)
    requires parts != [] && Storable(parse, directories) && prefixBytes == Sum(directories, PrefixCost(parse))
    ensures error.None? <==> Storable(parse, With(directories, parts, |parts|))
    ensures error.None? ==> more == With(directories, parts, |parts|) && bytes == Sum(more, PrefixCost(parse))
  {
    more, bytes := directories, prefixBytes;
    assert With(directories, parts, 1) == directories;
    for n := 1 to |parts|
      invariant more == With(directories, parts, n)
      invariant Storable(parse, more) && bytes == Sum(more, PrefixCost(parse))
    {
      var prefix := Join(parts[..n]);
      WithNext(directories, parts, n);
      error, more, bytes := AddAncestor(parse, more, bytes, prefix);
      if error.Some? {
        AncestorsMisfit(parse, directories, parts, n + 1);
        return;
      }
    }
    return None, more, bytes;
  }

  lemma AncestorsMisfit(parse: Parser, directories: set<string>, parts: seq<string>, n: nat)
    requires n <= |parts| && !Storable(parse, With(directories, parts, n))
    ensures !Storable(parse, With(directories, parts, |parts|))
  {
    if Storable(parse, With(directories, parts, |parts|)) {
      StorableSubset(parse, With(directories, parts, n), With(directories, parts, |parts|));
    }
  }

  ghost predicate ExpectedOk(parse: Parser, paths: seq<string>, n: nat)
    requires n <= |paths|
  {
    && ComponentsTo(paths, n) <= MAX_NAMESPACE_COMPONENTS
    && Storable(parse, AncestorsTo(paths, n))
  }

  lemma {:induction false} ExpectedGrows(paths: seq<string>, m: nat, n: nat)
    requires m <= n <= |paths|
    ensures ComponentsTo(paths, m) <= ComponentsTo(paths, n) && AncestorsTo(paths, m) <= AncestorsTo(paths, n)
    decreases n
  {
    if m < n {
      ExpectedGrows(paths, m, n - 1);
    }
  }

  lemma ExpectedToPrefix(parse: Parser, paths: seq<string>, m: nat, n: nat)
    requires m <= n <= |paths| && ExpectedOk(parse, paths, n)
    ensures ExpectedOk(parse, paths, m)
  {
    ExpectedGrows(paths, m, n);
    StorableSubset(parse, AncestorsTo(paths, m), AncestorsTo(paths, n));
  }

  // What the paths normalise to.
  function Values(parse: Parser, paths: seq<string>): (values: seq<string>)
    ensures |values| == |paths|
    ensures forall i :: 0 <= i < |paths| && parse(paths[i]).Ok? ==> values[i] == parse(paths[i]).value.value
  {
    seq(|paths|, i requires 0 <= i < |paths| => if parse(paths[i]).Ok? then parse(paths[i]).value.value else paths[i])
  }

  predicate PathsParse(parse: Parser, paths: seq<string>, n: nat)
    requires n <= |paths|
  {
    forall i :: 0 <= i < n ==> parse(paths[i]).Ok?
  }

  lemma CanonicalValues(parse: Parser, paths: seq<string>)
    requires forall i :: 0 <= i < |paths| ==> Canonical(parse, paths[i])
    ensures Values(parse, paths) == paths && PathsParse(parse, paths, |paths|)
  {
  }

  // One round of the outer loop.
  method AddPath(
    parse: Parser, paths: seq<string>, i: nat, directories: set<string>, components: nat, prefixBytes: nat)
    returns (error: Option<ArtifactError>, more: set<string>, count: nat, bytes: nat)
    requires i < |paths| && Storable(parse, directories)
    requires directories == AncestorsTo(Values(parse, paths), i) && components == ComponentsTo(Values(parse, paths), i)
    requires prefixBytes == Sum(directories, PrefixCost(parse))
    ensures error.None? <==> parse(paths[i]).Ok? && ExpectedOk(parse, Values(parse, paths), i + 1)
    ensures error.None? ==>
      && more == AncestorsTo(Values(parse, paths), i + 1) && count == ComponentsTo(Values(parse, paths), i + 1)
      && bytes == Sum(more, PrefixCost(parse))
  {
    more, count, bytes := directories, components, prefixBytes;
    var portable := parse(paths[i]);
    if portable.Err? {
      return Some(portable.error), more, count, bytes;
    }
    var parts := Split(portable.value.value);
    count := components + |parts|;
    if count > MAX_NAMESPACE_COMPONENTS {
      return Some(InvalidReceipt), more, count, bytes;
    }
    error, more, bytes := AddAncestors(parse, directories, prefixBytes, parts);
  }

  lemma ExpectedStart(parse: Parser, paths: seq<string>)
    ensures ExpectedOk(parse, paths, 0) && Sum({}, PrefixCost(parse)) == 0
  {
  }

  // expected_output_directories, whatever the paths.
  method ExpectedOutputDirectories(parse: Parser, paths: seq<string>) returns (r: Result<set<string>, ArtifactError>)
    ensures r.Ok? <==> PathsParse(parse, paths, |paths|) && ExpectedOk(parse, Values(parse, paths), |paths|)
    ensures r.Ok? ==> r.value == AncestorsTo(Values(parse, paths), |paths|)
  {
    var directories, components, prefixBytes := {}, 0, 0;
    ghost var values := Values(parse, paths);
    ExpectedStart(parse, values);
    for i := 0 to |paths|
      invariant directories == AncestorsTo(values, i) && components == ComponentsTo(values, i)
      invariant PathsParse(parse, paths, i)
      invariant ExpectedOk(parse, values, i) && prefixBytes == Sum(directories, PrefixCost(parse))
    {
      var error;
      error, directories, components, prefixBytes := AddPath(parse, paths, i, directories, components, prefixBytes);
      if error.Some? {
        if ExpectedOk(parse, values, |paths|) {
          ExpectedToPrefix(parse, values, i + 1, |paths|);
        }
        return Err(error.value);
      }
    }
    return Ok(directories);
  }

  // ---- The verification ------------------------------------------------------------------------------

  datatype VerifiedBuild = VerifiedBuild(report: BuildReport, files: nat, bytes: nat)

  function OutputPaths(files: seq<OutputFile>): (paths: seq<string>)
    ensures |paths| == |files| && forall i :: 0 <= i < |files| ==> paths[i] == files[i].path
  {
    seq(|files|, i requires 0 <= i < |files| => files[i].path)
  }

  function Declared(files: seq<OutputFile>): set<string> {
    set i | 0 <= i < |files| :: files[i].path
  }

  predicate LedgerOk(disk: Disk, entries: seq<Dirent>) {
    var ledger := Lookup(entries, [BUILD_LEDGER_NAME]);
    && ledger.Some? && ledger.value.node.File?
    && |ledger.value.node.content| <= MAX_LEDGER_BYTES
    && ledger.value.node.links == 1
    && disk.decode(ledger.value.node.content).Ok?
    && ReportOk(disk.env, disk.decode(ledger.value.node.content).value)
  }

  function ReportOn(disk: Disk, entries: seq<Dirent>): BuildReport
    requires LedgerOk(disk, entries)
  {
    disk.decode(Lookup(entries, [BUILD_LEDGER_NAME]).value.node.content).value
  }

  method ReadBuildReport(disk: Disk, entries: seq<Dirent>) returns (r: Result<BuildReport, ArtifactError>)
    ensures r.Ok? <==> LedgerOk(disk, entries)
    ensures r.Ok? ==> r.value == ReportOn(disk, entries)
  {
    var ledger := Lookup(entries, [BUILD_LEDGER_NAME]);
    if ledger.None? || ledger.value.node.Symlink? {
      return Err(Io(BUILD_LEDGER_NAME));
    }
    if !ledger.value.node.File? || |ledger.value.node.content| > MAX_LEDGER_BYTES {
      return Err(InvalidReceipt);
    }
    if ledger.value.node.links != 1 {
      return Err(InvalidPath(BUILD_LEDGER_NAME));
    }
    var decoded := disk.decode(ledger.value.node.content);
    if decoded.Err? {
      return decoded;
    }
    var error := ValidateReport(disk.env, decoded.value);
    return if error.Some? then Err(error.value) else decoded;
  }

  // The declared file is there: a regular file of its own with the declared size and hash.
  predicate ContentOk(disk: Disk, entries: seq<Dirent>, f: OutputFile) {
    var found := Lookup(entries, Split(f.path));
    && found.Some? && found.value.node.File?
    && |found.value.node.content| == f.bytes
    && found.value.node.links == 1
    && disk.hash(found.value.node.content) == f.sha256
  }

  method CheckContent(disk: Disk, entries: seq<Dirent>, f: OutputFile) returns (error: Option<ArtifactError>)
    requires OutputFileOk(disk.env, f)
    ensures error.None? <==> ContentOk(disk, entries, f)
  {
    var portable := disk.env.parse(f.path).value;
    var found := Lookup(entries, Split(portable.value));
    if found.None? || found.value.node.Symlink? {
      return Some(Io(f.path));
    }
    if !found.value.node.File? {
      return Some(InvalidPath(f.path));
    }
    var content := found.value.node.content;
    if |content| != f.bytes {
      return Some(Modified(f.path));
    }
    if found.value.node.links != 1 {
      return Some(InvalidPath(f.path));
    }
    if disk.hash(content) != f.sha256 {
      return Some(Modified(f.path));
    }
    return None;
  }

  method CheckMissing(files: seq<OutputFile>, actual: set<string>) returns (error: Option<ArtifactError>)
    ensures error.None? <==> Declared(files) <= actual
    ensures error.Some? ==> exists path :: path in Declared(files) - actual && error == Some(Missing(path))
  {
    for i := 0 to |files|
      invariant forall k :: 0 <= k < i ==> files[k].path in actual
    {
      if files[i].path !in actual {
        assert files[i].path in Declared(files) - actual;
        return Some(Missing(files[i].path));
      }
    }
    return None;
  }

  method CheckExtra(actual: set<string>, expected: set<string>, suffix: string) returns (error: Option<ArtifactError>)
    ensures error.None? <==> actual <= expected
    ensures error.Some? ==> exists path :: path in actual - expected && error == Some(Extra(path + suffix))
  {
    var rest := actual;
    while rest != {}
      invariant rest <= actual && actual - rest <= expected
      decreases rest
    {
      var path :| path in rest;
      if path !in expected {
        assert path in actual - expected;
        return Some(Extra(path + suffix));
      }
      rest := rest - {path};
    }
    return None;
  }

  ghost predicate ContentsOk(disk: Disk, entries: seq<Dirent>, files: seq<OutputFile>) {
    forall i :: 0 <= i < |files| ==> ContentOk(disk, entries, files[i])
  }

  // The loop over the files found; each has one declaration.
  method CheckContents(disk: Disk, entries: seq<Dirent>, files: seq<OutputFile>, actual: set<string>)
    returns (error: Option<ArtifactError>)
    requires StrictlyOrdered(files, OutputPath) && actual == Declared(files)
    requires forall i :: 0 <= i < |files| ==> OutputFileOk(disk.env, files[i])
    ensures error.None? <==> ContentsOk(disk, entries, files)
  {
    var rest := actual;
    while rest != {}
      invariant rest <= actual
      invariant forall i :: 0 <= i < |files| && files[i].path !in rest ==> ContentOk(disk, entries, files[i])
      decreases rest
    {
      var path :| path in rest;
      var i :| 0 <= i < |files| && files[i].path == path;
      error := CheckContent(disk, entries, files[i]);
      if error.Some? {
        return;
      }
      forall k | 0 <= k < |files| && files[k].path == path ensures k == i {
        StrictDistinct(files, OutputPath, k, i);
      }
      rest := rest - {path};
    }
    return None;
  }

  ghost predicate AllCanonicalIn(parse: Parser, paths: set<string>) {
    forall path :: path in paths ==> Canonical(parse, path)
  }

  // The comparison of the tree with the declared files and the directories they imply.
  ghost predicate TreeAgrees(disk: Disk, entries: seq<Dirent>, files: seq<OutputFile>) {
    var l := List(disk.env.parse, [], entries);
    && l.ok
    && l.files == Declared(files)
    && l.directories <= AncestorsTo(OutputPaths(files), |files|)
    && ContentsOk(disk, entries, files)
  }

  ghost predicate TreeMatches(disk: Disk, entries: seq<Dirent>, files: seq<OutputFile>) {
    var parse := disk.env.parse;
    var l := List(parse, [], entries);
    && TreeAgrees(disk, entries, files) && WithinLimits(l)
    && AllCanonicalIn(parse, l.files) && LayoutFits(parse, l.files, l.directories)
    && ExpectedOk(parse, OutputPaths(files), |files|)
  }

  ghost predicate Verified(disk: Disk, root: Node) {
    root.Directory? && LedgerOk(disk, root.entries)
    && TreeMatches(disk, root.entries, ReportOn(disk, root.entries).receipt.outputs.files)
  }

  lemma ListedCanonical(parse: Parser, entries: seq<Dirent>)
    requires FileSystem(entries) && List(parse, [], entries).ok
    ensures AllCanonicalIn(parse, List(parse, [], entries).files)
    ensures AllCanonicalIn(parse, List(parse, [], entries).directories)
  {
    var l := List(parse, [], entries);
    forall path | path in l.files ensures Canonical(parse, path) {
      var parts := ListedIsFound(parse, [], entries, path, true);
      FoundIsListed(parse, [], entries, parts);
    }
    forall path | path in l.directories ensures Canonical(parse, path) {
      var parts := ListedIsFound(parse, [], entries, path, false);
      FoundIsListed(parse, [], entries, parts);
    }
  }

  method CollectOutputLayout(parse: Parser, entries: seq<Dirent>) returns (error: Option<ArtifactError>, layout: OutputLayout)
    requires FileSystem(entries)
    ensures var l := List(parse, [], entries);
      error.None? <==> Fine(l) && AllCanonicalIn(parse, l.files) && LayoutFits(parse, l.files, l.directories)
    ensures error.None? ==> layout.View() == List(parse, [], entries)
  {
    layout := new OutputLayout();
    MergeNothing(List(parse, [], entries));
    error := layout.CollectDirectory(parse, [], "", entries);
    if error.Some? {
      return;
    }
    ListedCanonical(parse, entries);
    error := ValidateOutputLayoutNamespace(parse, layout.files, layout.directories);
  }

  method VerifyBuildReport(disk: Disk, root: Node) returns (r: Result<VerifiedBuild, ArtifactError>)
    requires root.Directory? ==> FileSystem(root.entries)
    ensures r.Ok? <==> Verified(disk, root)
    ensures r.Ok? ==>
      var report := ReportOn(disk, root.entries);
      r.value == VerifiedBuild(report, |Declared(report.receipt.outputs.files)|, report.receipt.outputs.totalBytes)
  {
    if !root.Directory? {
      return Err(InvalidPath(""));
    }
    var entries := root.entries;
    var read := ReadBuildReport(disk, entries);
    if read.Err? {
      return Err(read.error);
    }
    var report := read.value;
    var files := report.receipt.outputs.files;
    var error, layout := CollectOutputLayout(disk.env.parse, entries);
    if error.Some? {
      return Err(error.value);
    }
    error := CompareTree(disk, entries, files, layout.files, layout.directories);
    if error.Some? {
      return Err(error.value);
    }
    return Ok(VerifiedBuild(report, |layout.files|, report.receipt.outputs.totalBytes));
  }

  method CompareTree(
    disk: Disk, entries: seq<Dirent>, files: seq<OutputFile>, actual: set<string>, directories: set<string>)
    returns (error: Option<ArtifactError>)
    requires OutputsOk(disk.env, files)
    ensures error.None? <==>
      && actual == Declared(files)
      && ExpectedOk(disk.env.parse, OutputPaths(files), |files|)
      && directories <= AncestorsTo(OutputPaths(files), |files|)
      && ContentsOk(disk, entries, files)
  {
    error := CheckMissing(files, actual);
    if error.Some? {
      return;
    }
    error := CheckExtra(actual, Declared(files), "");
    if error.Some? {
      return;
    }
    CanonicalValues(disk.env.parse, OutputPaths(files));
    var expected := ExpectedOutputDirectories(disk.env.parse, OutputPaths(files));
    if expected.Err? {
      return Some(expected.error);
    }
    error := CheckExtra(directories, expected.value, "/");
    if error.Some? {
      return;
    }
    error := CheckContents(disk, entries, files, actual);
  }
}
