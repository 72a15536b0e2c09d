// Build contexts, artifact receipts and build reports (pliego-artifact, lib.rs).
//
// The hash of the JSON encoding of a value is uninterpreted: the environment carries one function per
// kind of value that is hashed.
module Receipts {
  import opened Prelude
  import opened Text
  import opened Sorting
  import opened Sums
  import opened Namespaces

  const BUILD_LEDGER_NAME := "pliego.build.json"
  const BUILD_GRAPH_NAME := "pliego.graph.json"
  const BUILD_REPORT_VERSION := "2.0.0"
  const RECEIPT_VERSION := "2.0.0"
  const NAMESPACE_VERSION := "1.0.0"
  const MAX_ARTIFACT_FILES: nat := 100000
  const MAX_OUTPUT_FILE_BYTES: nat := 536870912
  const MAX_OUTPUT_TOTAL_BYTES: nat := 4294967296

  datatype EvidenceFile = EvidenceFile(path: string, bytes: u64, sha256: string)
  datatype ToolchainEvidence = ToolchainEvidence(name: string, version: string)
  datatype Ownership = Ownership(projectId: string, sitePackage: string)
  datatype FrameworkEvidence = FrameworkEvidence(version: string, sourceRevision: string)
  datatype InputMaterial = InputMaterial(
    id: string, kind: string, selection: string, fileCount: u64, totalBytes: u64, sha256: string)
  datatype OutputFile = OutputFile(path: string, kind: string, producer: string, bytes: u64, sha256: string)

  datatype BuildContext = BuildContext(
    ownership: Ownership,
    framework: FrameworkEvidence,
    toolchain: seq<ToolchainEvidence>,
    configuration: seq<EvidenceFile>,
    sources: seq<EvidenceFile>,
    materials: seq<InputMaterial>,
    sourceSetSha256: string,
    excludedPaths: seq<string>)

  datatype OutputSet = OutputSet(files: seq<OutputFile>, fileCount: nat, totalBytes: nat, sha256: string)
  datatype PreviousOwnership = PreviousOwnership(projectId: string, sitePackage: string, receiptSha256: string)

  datatype ArtifactReceipt = ArtifactReceipt(
    receiptVersion: string,
    namespaceVersion: string,
    context: BuildContext,
    requiredPreviousProjectId: string,
    previousOwnership: Option<PreviousOwnership>,
    outputs: OutputSet)

  datatype BuildReport = BuildReport(reportVersion: string, receiptSha256: string, receipt: ArtifactReceipt)

  datatype Environment = Environment(
    parse: Parser,
    blank: string -> bool,
    hashOutputs: seq<OutputFile> -> string,
    hashSources: (seq<EvidenceFile>, seq<InputMaterial>) -> string,
    hashReceipt: ArtifactReceipt -> string)

  // ---- Keys ------------------------------------------------------------------------------------------

  function EvidencePath(f: EvidenceFile): string { f.path }
  function ToolName(t: ToolchainEvidence): string { t.name }
  function MaterialId(m: InputMaterial): string { m.id }
  function OutputPath(f: OutputFile): string { f.path }
  function OutputOwner(f: OutputFile): string { f.producer }
  function Itself(s: string): string { s }
  function Labelled(owner: string): EvidenceFile -> string { (f: EvidenceFile) => owner }

  // ---- Field checks ----------------------------------------------------------------------------------

  predicate ValidSha256(s: string) {
    |s| == 64 && forall c :: c in s ==> '0' <= c <= '9' || 'a' <= c <= 'f'
  }

  predicate ValidProjectId(s: string) {
    && 0 < |s| <= 64 && 'a' <= s[0] <= 'z'
    && forall c :: c in s ==> 'a' <= c <= 'z' || '0' <= c <= '9' || c == '-'
  }

  predicate ValidToken(s: string) {
    && 0 < |s| <= 128
    && (forall c :: c in s ==>
          'a' <= c <= 'z' || 'A' <= c <= 'Z' || '0' <= c <= '9' || c in {'.', '-', '_', '@', '+', '/'})
    && forall i :: 0 <= i < |s| - 1 ==> !(s[i] == '.' && s[i + 1] == '.')
  }

  // Parses, and is already the spelling that parsing yields.
  predicate Canonical(parse: Parser, path: string) {
    parse(path).Ok? && parse(path).value.value == path
  }

  // insert_str on a run: the namespace so far, or None once something was rejected.
  function InsertAfter(run: Option<Namespace>, parse: Parser, path: string, owner: string): Option<Namespace> {
    if run.None? || parse(path).Err? then None
    else
      var (ns, error) := InsertOne(run.value, parse(path).value, owner);
      if error.Some? then None else Some(ns)
  }

  // The run over the first n items, started from front.
  function RunTo<T>(parse: Parser, front: Option<Namespace>, items: seq<T>, path: T -> string, owner: T -> string, n: nat)
    : Option<Namespace>
    requires n <= |items|
  {
    if n == 0 then front
    else InsertAfter(RunTo(parse, front, items, path, owner, n - 1), parse, path(items[n - 1]), owner(items[n - 1]))
  }

  lemma {:induction false} StaysRejected<T>(
    parse: Parser, front: Option<Namespace>, items: seq<T>, path: T -> string, owner: T -> string, m: nat, n: nat)
    requires m <= n <= |items| && RunTo(parse, front, items, path, owner, m).None?
    ensures RunTo(parse, front, items, path, owner, n).None?
    decreases n
  {
    if m < n {
      StaysRejected(parse, front, items, path, owner, m, n - 1);
    }
  }

  method InsertNext(parse: Parser, ns: OutputNamespace, path: string, owner: string)
    returns (r: Result<PortablePath, ArtifactError>)
    modifies ns
    ensures r.Ok? ==> r == parse(path) && InsertAfter(Some(old(ns.View())), parse, path, owner) == Some(ns.View())
    ensures r.Err? ==> InsertAfter(Some(old(ns.View())), parse, path, owner) == None
  {
    r := ns.InsertStr(parse, path, owner);
  }

  // The namespace entries of the items, where every path parses.
  function EntriesTo<T>(parse: Parser, front: seq<Entry>, items: seq<T>, path: T -> string, owner: T -> string, n: nat)
    : seq<Entry>
    requires n <= |items| && forall i :: 0 <= i < |items| ==> parse(path(items[i])).Ok?
  {
    if n == 0 then front
    else EntriesTo(parse, front, items, path, owner, n - 1) + [Entry(parse(path(items[n - 1])).value, owner(items[n - 1]))]
  }

  function After(entries: seq<Entry>): Option<Namespace> {
    var (ns, error) := InsertAll(EMPTY_NAMESPACE, entries);
    if error.Some? then None else Some(ns)
  }

  lemma AfterNext(parse: Parser, entries: seq<Entry>, path: string, owner: string)
    requires parse(path).Ok?
    ensures After(entries + [Entry(parse(path).value, owner)]) == InsertAfter(After(entries), parse, path, owner)
  {
    InsertAllAppend(EMPTY_NAMESPACE, entries, Entry(parse(path).value, owner));
    hide InsertAll, InsertOne;
  }

  // A run of paths that parse goes through exactly when the namespace accepts their entries.
  lemma {:induction false} RunAccepts<T>(
    parse: Parser, front: seq<Entry>, items: seq<T>, path: T -> string, owner: T -> string, n: nat)
    requires n <= |items| && forall i :: 0 <= i < |items| ==> parse(path(items[i])).Ok?
    ensures RunTo(parse, After(front), items, path, owner, n) == After(EntriesTo(parse, front, items, path, owner, n))
    decreases n
  {
    hide After, InsertAfter;
    if n > 0 {
      RunAccepts(parse, front, items, path, owner, n - 1);
      AfterNext(parse, EntriesTo(parse, front, items, path, owner, n - 1), path(items[n - 1]), owner(items[n - 1]));
    }
  }

  // ---- Evidence files --------------------------------------------------------------------------------

  predicate EvidenceFileOk(parse: Parser, f: EvidenceFile) {
    Canonical(parse, f.path) && ValidSha256(f.sha256)
  }

  function EvidenceRun(parse: Parser, files: seq<EvidenceFile>, owner: string, n: nat): Option<Namespace>
    requires n <= |files|
  {
    RunTo(parse, Some(EMPTY_NAMESPACE), files, EvidencePath, Labelled(owner), n)
  }

  predicate EvidenceOk(parse: Parser, files: seq<EvidenceFile>, owner: string) {
    && StrictlyOrdered(files, EvidencePath)
    && (forall i :: 0 <= i < |files| ==> EvidenceFileOk(parse, files[i]))
    && EvidenceRun(parse, files, owner, |files|).Some?
  }

  method ValidateEvidenceSet(parse: Parser, files: seq<EvidenceFile>, owner: string)
    returns (error: Option<ArtifactError>)
    ensures error.None? <==> EvidenceOk(parse, files, owner)
  {
    var ns := new OutputNamespace();
    var previous: Option<string> := None;
    for i := 0 to |files|
      invariant previous == if i == 0 then None else Some(files[i - 1].path)
      invariant StrictTo(files, EvidencePath, i)
      invariant forall k :: 0 <= k < i ==> EvidenceFileOk(parse, files[k])
      invariant EvidenceRun(parse, files, owner, i) == Some(ns.View())
    {
      var file := files[i];
      if previous.Some? && !Less(previous.value, file.path) {
        assert !Less(EvidencePath(files[i - 1]), EvidencePath(files[i]));
        return Some(InvalidReceipt);
      }
      var portable := InsertNext(parse, ns, file.path, owner);
      if portable.Err? {
        EvidenceRejected(parse, files, owner, i + 1);
        return Some(portable.error);
      }
      if portable.value.value != file.path {
        assert !EvidenceFileOk(parse, files[i]);
        return Some(InvalidReceipt);
      }
      if !ValidSha256(file.sha256) {
        assert !EvidenceFileOk(parse, files[i]);
        return Some(InvalidReceipt);
      }
      previous := Some(file.path);
    }
    return None;
  }

  lemma EvidenceRejected(parse: Parser, files: seq<EvidenceFile>, owner: string, n: nat)
    requires n <= |files| && EvidenceRun(parse, files, owner, n).None?
    ensures EvidenceRun(parse, files, owner, |files|).None?
  {
    StaysRejected(parse, Some(EMPTY_NAMESPACE), files, EvidencePath, Labelled(owner), n, |files|);
  }

  // The evidence validator's namespace test, in the pairwise terms of the oracle.
  lemma EvidenceRunFits(parse: Parser, files: seq<EvidenceFile>, owner: string)
    requires forall i :: 0 <= i < |files| ==> parse(files[i].path).Ok?
    ensures EvidenceRun(parse, files, owner, |files|).Some? <==>
      Fits(EntriesTo(parse, [], files, EvidencePath, Labelled(owner), |files|))
  {
    RunAccepts(parse, [], files, EvidencePath, Labelled(owner), |files|);
    AcceptedIff(EntriesTo(parse, [], files, EvidencePath, Labelled(owner), |files|));
  }

  // ---- Outputs ---------------------------------------------------------------------------------------

  predicate OutputFileOk(env: Environment, f: OutputFile) {
    && Canonical(env.parse, f.path)
    && !env.blank(f.kind) && !env.blank(f.producer)
    && f.bytes <= MAX_OUTPUT_FILE_BYTES
    && ValidSha256(f.sha256)
  }

  function TotalTo(files: seq<OutputFile>, n: nat): nat
    requires n <= |files|
  {
    if n == 0 then 0 else TotalTo(files, n - 1) + files[n - 1].bytes
  }

  lemma {:induction false} TotalGrows(files: seq<OutputFile>, m: nat, n: nat)
    requires m <= n <= |files|
    ensures TotalTo(files, m) <= TotalTo(files, n)
    decreases n
  {
    if m < n {
      TotalGrows(files, m, n - 1);
    }
  }

  function BytesAt(files: seq<OutputFile>): int -> nat {
    (i: int) => if 0 <= i < |files| then files[i].bytes else 0
  }

  lemma {:induction false} TotalIsSum(files: seq<OutputFile>, n: nat)
    requires n <= |files|
    ensures TotalTo(files, n) == Sum(Positions(n), BytesAt(files))
  {
    if n > 0 {
      TotalIsSum(files, n - 1);
      SumAdd(Positions(n - 1), BytesAt(files), n - 1);
    }
  }

  // The outputs are inserted after the ledger's own name.
  function OutputRun(parse: Parser, files: seq<OutputFile>, n: nat): Option<Namespace>
    requires n <= |files|
  {
    RunTo(parse, InsertAfter(Some(EMPTY_NAMESPACE), parse, BUILD_LEDGER_NAME, "framework ledger"), files, OutputPath, OutputOwner, n)
  }

  // The loop's tests on the first n outputs.
  predicate OutputsTo(env: Environment, files: seq<OutputFile>, n: nat)
    requires n <= |files|
  {
    && StrictTo(files, OutputPath, n)
    && (forall i :: 0 <= i < n ==> OutputFileOk(env, files[i]))
    && TotalTo(files, n) <= MAX_OUTPUT_TOTAL_BYTES
    && OutputRun(env.parse, files, n).Some?
  }

  predicate OutputsOk(env: Environment, files: seq<OutputFile>) {
    |files| <= MAX_ARTIFACT_FILES && OutputsTo(env, files, |files|)
  }

  // The tests of one round of the loop.
  predicate OutputNext(env: Environment, files: seq<OutputFile>, i: nat)
    requires i < |files|
  {
    && (i > 0 ==> Less(files[i - 1].path, files[i].path))
    && OutputFileOk(env, files[i])
    && TotalTo(files, i) + files[i].bytes <= MAX_OUTPUT_TOTAL_BYTES
    && OutputRun(env.parse, files, i + 1).Some?
  }

  lemma OutputsStep(env: Environment, files: seq<OutputFile>, i: nat)
    requires i < |files| && OutputsTo(env, files, i)
    ensures OutputsTo(env, files, i + 1) <==> OutputNext(env, files, i)
  {
    if i > 0 {
      assert OutputPath(files[i - 1]) == files[i - 1].path && OutputPath(files[i]) == files[i].path;
    }
  }

  lemma OutputsStayRejected(env: Environment, files: seq<OutputFile>, n: nat)
    requires n <= |files| && !OutputsTo(env, files, n)
    ensures !OutputsTo(env, files, |files|)
  {
    TotalGrows(files, n, |files|);
    if OutputRun(env.parse, files, n).None? {
      StaysRejected(
        env.parse, InsertAfter(Some(EMPTY_NAMESPACE), env.parse, BUILD_LEDGER_NAME, "framework ledger"), files, OutputPath, OutputOwner,
        n, |files|);
    }
  }

  method CheckOutput(
    env: Environment, ns: OutputNamespace, files: seq<OutputFile>, i: nat, previous: Option<string>, total: nat)
    returns (error: Option<ArtifactError>, sum: nat)
    requires i < |files| && OutputRun(env.parse, files, i) == Some(ns.View())
    requires previous == (if i == 0 then None else Some(files[i - 1].path)) && total == TotalTo(files, i)
    modifies ns
    ensures error.None? <==> OutputNext(env, files, i)
    ensures error.None? ==> OutputRun(env.parse, files, i + 1) == Some(ns.View()) && sum == TotalTo(files, i + 1)
  {
    var file := files[i];
    sum := total;
    if previous.Some? && !Less(previous.value, file.path) {
      return Some(InvalidReceipt), sum;
    }
    var portable := InsertNext(env.parse, ns, file.path, file.producer);
    if portable.Err? {
      return Some(portable.error), sum;
    }
    if portable.value.value != file.path || env.blank(file.kind) || env.blank(file.producer)
       || file.bytes > MAX_OUTPUT_FILE_BYTES {
      return Some(InvalidReceipt), sum;
    }
    if total + file.bytes >= TWO_TO_THE_64 || total + file.bytes > MAX_OUTPUT_TOTAL_BYTES {
      return Some(InvalidReceipt), sum;
    }
    sum := total + file.bytes;
    if !ValidSha256(file.sha256) {
      return Some(InvalidReceipt), sum;
    }
    return None, sum;
  }

  lemma OutputsStart(env: Environment, files: seq<OutputFile>)
    ensures OutputRun(env.parse, files, 0)
      == InsertAfter(Some(EMPTY_NAMESPACE), env.parse, BUILD_LEDGER_NAME, "framework ledger")
    ensures TotalTo(files, 0) == 0
    ensures OutputsTo(env, files, 0) <==> OutputRun(env.parse, files, 0).Some?
  {
  }

  method ValidateOutputs(env: Environment, files: seq<OutputFile>) returns (error: Option<ArtifactError>)
    ensures error.None? <==> OutputsOk(env, files)
  {
    hide OutputsTo, OutputRun, OutputNext, TotalTo, InsertAfter;
    OutputsStart(env, files);
    if |files| > MAX_ARTIFACT_FILES {
      return Some(InvalidReceipt);
    }
    var ns := new OutputNamespace();
    var ledger := InsertNext(env.parse, ns, BUILD_LEDGER_NAME, "framework ledger");
    if ledger.Err? {
      OutputsStayRejected(env, files, 0);
      return Some(ledger.error);
    }
    var previous: Option<string>, total: nat := None, 0;
    for i := 0 to |files|
      invariant previous == if i == 0 then None else Some(files[i - 1].path)
      invariant total == TotalTo(files, i)
      invariant OutputsTo(env, files, i)
      invariant OutputRun(env.parse, files, i) == Some(ns.View())
    {
      error, total := CheckOutput(env, ns, files, i, previous, total);
      OutputsStep(env, files, i);
      if error.Some? {
        OutputsStayRejected(env, files, i + 1);
        return;
      }
      previous := Some(files[i].path);
    }
    return None;
  }

  // What the outputs of an accepted set mean for the namespace: with the ledger they fit pairwise.
  function OutputEntries(parse: Parser, files: seq<OutputFile>): seq<Entry>
    requires parse(BUILD_LEDGER_NAME).Ok? && forall i :: 0 <= i < |files| ==> parse(files[i].path).Ok?
  {
    EntriesTo(parse, [Entry(parse(BUILD_LEDGER_NAME).value, "framework ledger")], files, OutputPath, OutputOwner, |files|)
  }

  lemma OutputRunFits(parse: Parser, files: seq<OutputFile>)
    requires forall i :: 0 <= i < |files| ==> parse(files[i].path).Ok?
    ensures OutputRun(parse, files, |files|).Some? <==>
      parse(BUILD_LEDGER_NAME).Ok? && Fits(OutputEntries(parse, files))
  {
    if parse(BUILD_LEDGER_NAME).Ok? {
      var ledger := Entry(parse(BUILD_LEDGER_NAME).value, "framework ledger");
      InsertAllAppend(EMPTY_NAMESPACE, [], ledger);
      assert [] + [ledger] == [ledger];
      RunAccepts(parse, [ledger], files, OutputPath, OutputOwner, |files|);
      AcceptedIff(OutputEntries(parse, files));
    } else {
      OutputRunFails(parse, files);
    }
  }

  lemma OutputRunFails(parse: Parser, files: seq<OutputFile>)
    requires parse(BUILD_LEDGER_NAME).Err?
    ensures OutputRun(parse, files, |files|).None?
  {
    StaysRejected(
      parse, InsertAfter(Some(EMPTY_NAMESPACE), parse, BUILD_LEDGER_NAME, "framework ledger"), files, OutputPath, OutputOwner,
      0, |files|);
  }

  // ---- The context -----------------------------------------------------------------------------------

  predicate MaterialOk(m: InputMaterial) {
    && ValidToken(m.id) && ValidToken(m.kind)
    && m.selection in {"tree-v1", "exact-files-v1"}
    && m.fileCount != 0
    && ValidSha256(m.sha256)
  }

  predicate MaterialsOk(materials: seq<InputMaterial>) {
    && StrictlyOrdered(materials, MaterialId)
    && forall i :: 0 <= i < |materials| ==> MaterialOk(materials[i])
  }

  function FilesTo(materials: seq<InputMaterial>, n: nat): nat
    requires n <= |materials|
  {
    if n == 0 then 0 else FilesTo(materials, n - 1) + materials[n - 1].fileCount
  }

  function FileCountAt(materials: seq<InputMaterial>): int -> nat {
    (i: int) => if 0 <= i < |materials| then materials[i].fileCount else 0
  }

  lemma {:induction false} FilesIsSum(materials: seq<InputMaterial>, n: nat)
    requires n <= |materials|
    ensures FilesTo(materials, n) == Sum(Positions(n), FileCountAt(materials))
  {
    if n > 0 {
      FilesIsSum(materials, n - 1);
      SumAdd(Positions(n - 1), FileCountAt(materials), n - 1);
    }
  }

  predicate ToolchainOk(env: Environment, toolchain: seq<ToolchainEvidence>) {
    && StrictlyOrdered(toolchain, ToolName)
    && (forall i :: 0 <= i < |toolchain| ==> toolchain[i].name in {"cargo", "rustc", "wasm-bindgen"})
    && (exists i :: 0 <= i < |toolchain| && toolchain[i].name == "cargo")
    && (exists i :: 0 <= i < |toolchain| && toolchain[i].name == "rustc")
    && forall i :: 0 <= i < |toolchain| ==> !env.blank(toolchain[i].name) && !env.blank(toolchain[i].version)
  }

  predicate StrictPathsOk(parse: Parser, paths: seq<string>) {
    && StrictlyOrdered(paths, Itself)
    && forall i :: 0 <= i < |paths| ==> Canonical(parse, paths[i])
  }

  predicate HeaderOk(env: Environment, c: BuildContext) {
    && ValidProjectId(c.ownership.projectId) && !env.blank(c.ownership.sitePackage)
    && !env.blank(c.framework.version) && !env.blank(c.framework.sourceRevision)
  }

  // What normalize_context checks once the lists are sorted.
  predicate ContextOk(env: Environment, c: BuildContext) {
    && HeaderOk(env, c)
    && EvidenceOk(env.parse, c.configuration, "configuration")
    && EvidenceOk(env.parse, c.sources, "source")
    && MaterialsOk(c.materials)
    && |c.configuration| + |c.sources| + FilesTo(c.materials, |c.materials|) <= MAX_ARTIFACT_FILES
    && ToolchainOk(env, c.toolchain)
    && EvidenceRun(env.parse, c.configuration + c.sources, "build input", |c.configuration + c.sources|).Some?
    && StrictPathsOk(env.parse, c.excludedPaths)
    && c.sourceSetSha256 == env.hashSources(c.sources, c.materials)
  }

  function Sorted(c: BuildContext): BuildContext {
    c.(toolchain := SortBy(c.toolchain, ToolName),
       configuration := SortBy(c.configuration, EvidencePath),
       sources := SortBy(c.sources, EvidencePath),
       materials := SortBy(c.materials, MaterialId),
       excludedPaths := SortBy(c.excludedPaths, Itself))
  }

  method ValidateMaterials(materials: seq<InputMaterial>) returns (error: Option<ArtifactError>)
    ensures error.None? <==> MaterialsOk(materials)
  {
    var previous: Option<string> := None;
    for i := 0 to |materials|
      invariant previous == if i == 0 then None else Some(materials[i - 1].id)
      invariant StrictTo(materials, MaterialId, i)
      invariant forall k :: 0 <= k < i ==> MaterialOk(materials[k])
    {
      var material := materials[i];
      if previous.Some? && !Less(previous.value, material.id) {
        assert !Less(MaterialId(materials[i - 1]), MaterialId(materials[i]));
        return Some(InvalidReceipt);
      }
      if !MaterialOk(material) {
        return Some(InvalidReceipt);
      }
      previous := Some(material.id);
    }
    return None;
  }

  lemma {:induction false} FilesGrow(materials: seq<InputMaterial>, m: nat, n: nat)
    requires m <= n <= |materials|
    ensures FilesTo(materials, m) <= FilesTo(materials, n)
    decreases n
  {
    if m < n {
      FilesGrow(materials, m, n - 1);
    }
  }

  // The checked sum of the input counts.
  method CountInputs(configuration: nat, sources: nat, materials: seq<InputMaterial>) returns (error: Option<ArtifactError>)
    ensures error.None? <==> configuration + sources + FilesTo(materials, |materials|) <= MAX_ARTIFACT_FILES
  {
    FilesGrow(materials, 0, |materials|);
    if configuration + sources >= TWO_TO_THE_64 {
      return Some(InvalidReceipt);
    }
    var total := configuration + sources;
    for i := 0 to |materials|
      invariant total == configuration + sources + FilesTo(materials, i) < TWO_TO_THE_64
    {
      FilesGrow(materials, i + 1, |materials|);
      if total + materials[i].fileCount >= TWO_TO_THE_64 {
        return Some(InvalidReceipt);
      }
      total := total + materials[i].fileCount;
    }
    return if total > MAX_ARTIFACT_FILES then Some(InvalidReceipt) else None;
  }

  method ValidateInputNamespace(parse: Parser, files: seq<EvidenceFile>) returns (error: Option<ArtifactError>)
    ensures error.None? <==> EvidenceRun(parse, files, "build input", |files|).Some?
  {
    var ns := new OutputNamespace();
    for i := 0 to |files|
      invariant EvidenceRun(parse, files, "build input", i) == Some(ns.View())
    {
      var portable := InsertNext(parse, ns, files[i].path, "build input");
      if portable.Err? {
        EvidenceRejected(parse, files, "build input", i + 1);
        return Some(portable.error);
      }
    }
    return None;
  }

  // Excluded paths of a context here, declared paths of the build graph elsewhere: canonical and in order.
  method ValidateStrictPortablePaths(parse: Parser, paths: seq<string>) returns (error: Option<ArtifactError>)
    ensures error.None? <==> StrictPathsOk(parse, paths)
  {
    var previous: Option<string> := None;
    for i := 0 to |paths|
      invariant previous == if i == 0 then None else Some(paths[i - 1])
      invariant StrictTo(paths, Itself, i)
      invariant forall k :: 0 <= k < i ==> Canonical(parse, paths[k])
    {
      var portable := parse(paths[i]);
      if portable.Err? {
        return Some(portable.error);
      }
      if portable.value.value != paths[i] || (previous.Some? && !Less(previous.value, paths[i])) {
        assert previous.Some? && !Less(previous.value, paths[i]) ==> !Less(Itself(paths[i - 1]), Itself(paths[i]));
        return Some(InvalidReceipt);
      }
      previous := Some(paths[i]);
    }
    return None;
  }

  method NormalizeContext(env: Environment, context: BuildContext) returns (r: Result<BuildContext, ArtifactError>)
    ensures r.Ok? <==> ContextOk(env, Sorted(context))
    ensures r.Ok? ==> r.value == Sorted(context)
  {
    var current := context;
    if !HeaderOk(env, current) {
      return Err(InvalidReceipt);
    }
    if |current.toolchain| == 0 {
      return Err(InvalidReceipt);
    }
    current := Sorted(current);
    var error := ValidateEvidenceSet(env.parse, current.configuration, "configuration");
    if error.Some? {
      return Err(error.value);
    }
    error := ValidateEvidenceSet(env.parse, current.sources, "source");
    if error.Some? {
      return Err(error.value);
    }
    error := ValidateMaterials(current.materials);
    if error.Some? {
      return Err(error.value);
    }
    error := CountInputs(|current.configuration|, |current.sources|, current.materials);
    if error.Some? {
      return Err(error.value);
    }
    if !ToolchainOk(env, current.toolchain) {
      return Err(InvalidReceipt);
    }
    error := ValidateInputNamespace(env.parse, current.configuration + current.sources);
    if error.Some? {
      return Err(error.value);
    }
    error := ValidateStrictPortablePaths(env.parse, current.excludedPaths);
    if error.Some? {
      return Err(error.value);
    }
    if current.sourceSetSha256 != env.hashSources(current.sources, current.materials) {
      return Err(InvalidReceipt);
    }
    return Ok(current);
  }

  lemma NormalizeIdempotent(env: Environment, c: BuildContext)
    requires ContextOk(env, c)
    ensures Sorted(c) == c
  {
    SortOfStrict(c.toolchain, ToolName);
    SortOfStrict(c.configuration, EvidencePath);
    SortOfStrict(c.sources, EvidencePath);
    SortOfStrict(c.materials, MaterialId);
    SortOfStrict(c.excludedPaths, Itself);
  }

  // ---- Receipts --------------------------------------------------------------------------------------

  predicate Accepted(env: Environment, context: BuildContext, files: seq<OutputFile>) {
    ContextOk(env, Sorted(context)) && OutputsOk(env, SortBy(files, OutputPath))
  }

  function ReceiptOf(env: Environment, context: BuildContext, files: seq<OutputFile>, previous: Option<PreviousOwnership>)
    : ArtifactReceipt
  {
    var outputs := SortBy(files, OutputPath);
    ArtifactReceipt(
      RECEIPT_VERSION, NAMESPACE_VERSION, Sorted(context), context.ownership.projectId, previous,
      OutputSet(outputs, |outputs|, TotalTo(outputs, |outputs|), env.hashOutputs(outputs)))
  }

  method SumBytes(files: seq<OutputFile>) returns (total: Option<nat>)
    ensures total == if TotalTo(files, |files|) < TWO_TO_THE_64 then Some(TotalTo(files, |files|)) else None
  {
    var sum := 0;
    for i := 0 to |files|
      invariant sum == TotalTo(files, i) < TWO_TO_THE_64
    {
      TotalGrows(files, i + 1, |files|);
      if sum + files[i].bytes >= TWO_TO_THE_64 {
        return None;
      }
      sum := sum + files[i].bytes;
    }
    return Some(sum);
  }

  method FromContextFilesAndPrevious(
    env: Environment, context: BuildContext, files: seq<OutputFile>, previous: Option<PreviousOwnership>)
    returns (r: Result<ArtifactReceipt, ArtifactError>)
    ensures r.Ok? <==> Accepted(env, context, files)
    ensures r.Ok? ==> r.value == ReceiptOf(env, context, files, previous)
  {
    var normalized := NormalizeContext(env, context);
    if normalized.Err? {
      return Err(normalized.error);
    }
    var outputs := SortBy(files, OutputPath);
    var error := ValidateOutputs(env, outputs);
    if error.Some? {
      return Err(error.value);
    }
    var total := SumBytes(outputs);
    if total.None? {
      return Err(InvalidReceipt);
    }
    return Ok(ArtifactReceipt(
      RECEIPT_VERSION, NAMESPACE_VERSION, normalized.value, normalized.value.ownership.projectId, previous,
      OutputSet(outputs, |outputs|, total.value, env.hashOutputs(outputs))));
  }

  ghost predicate SameUpToOrder(c: BuildContext, d: BuildContext) {
    && c.ownership == d.ownership && c.framework == d.framework && c.sourceSetSha256 == d.sourceSetSha256
    && Permuted(c.toolchain, d.toolchain)
    && Permuted(c.configuration, d.configuration)
    && Permuted(c.sources, d.sources)
    && Permuted(c.materials, d.materials)
    && Permuted(c.excludedPaths, d.excludedPaths)
  }

  lemma SortedIsCanonical(env: Environment, c: BuildContext, d: BuildContext)
    requires ContextOk(env, Sorted(c))
    ensures SameUpToOrder(c, d) <==> Sorted(c) == Sorted(d)
  {
    SortIsCanonical(c.toolchain, d.toolchain, ToolName);
    SortIsCanonical(c.configuration, d.configuration, EvidencePath);
    SortIsCanonical(c.sources, d.sources, EvidencePath);
    SortIsCanonical(c.materials, d.materials, MaterialId);
    SortIsCanonical(c.excludedPaths, d.excludedPaths, Itself);
  }

  // An accepted input has the same receipt as another one exactly when the two differ in order only;
  // and then the other one is accepted as well.
  lemma ReceiptIsCanonical(
    env: Environment, c: BuildContext, d: BuildContext, f: seq<OutputFile>, g: seq<OutputFile>,
    previous: Option<PreviousOwnership>)
    requires Accepted(env, c, f)
    ensures (SameUpToOrder(c, d) && Permuted(f, g)) <==> ReceiptOf(env, c, f, previous) == ReceiptOf(env, d, g, previous)
    ensures SameUpToOrder(c, d) && Permuted(f, g) ==> Accepted(env, d, g)
  {
    SortedIsCanonical(env, c, d);
    SortIsCanonical(f, g, OutputPath);
  }

  // ---- Reports ---------------------------------------------------------------------------------------

  predicate PreviousOk(env: Environment, previous: Option<PreviousOwnership>, projectId: string, receiptSha256: string) {
    previous.Some? ==>
      && ValidProjectId(previous.value.projectId)
      && ValidSha256(previous.value.receiptSha256)
      && !env.blank(previous.value.sitePackage)
      && previous.value.projectId == projectId
      && previous.value.receiptSha256 != receiptSha256
  }

  // What validate_report accepts.
  predicate ReportOk(env: Environment, report: BuildReport) {
    var r := report.receipt;
    && report.reportVersion == BUILD_REPORT_VERSION
    && r.receiptVersion == RECEIPT_VERSION && r.namespaceVersion == NAMESPACE_VERSION
    && ContextOk(env, Sorted(r.context)) && Sorted(r.context) == r.context
    && OutputsOk(env, r.outputs.files)
    && r.outputs.fileCount == |r.outputs.files|
    && r.outputs.totalBytes == TotalTo(r.outputs.files, |r.outputs.files|)
    && r.outputs.sha256 == env.hashOutputs(r.outputs.files)
    && report.receiptSha256 == env.hashReceipt(r)
    && ValidProjectId(r.requiredPreviousProjectId)
    && r.requiredPreviousProjectId == r.context.ownership.projectId
    && PreviousOk(env, r.previousOwnership, r.requiredPreviousProjectId, report.receiptSha256)
  }

  method ValidateReport(env: Environment, report: BuildReport) returns (error: Option<ArtifactError>)
    ensures error.None? <==> ReportOk(env, report)
  {
    var r := report.receipt;
    if report.reportVersion != BUILD_REPORT_VERSION {
      return Some(InvalidReceipt);
    }
    if r.receiptVersion != RECEIPT_VERSION || r.namespaceVersion != NAMESPACE_VERSION {
      return Some(InvalidReceipt);
    }
    var context := NormalizeContext(env, r.context);
    if context.Err? {
      return Some(context.error);
    }
    if context.value != r.context {
      return Some(InvalidReceipt);
    }
    error := ValidateOutputs(env, r.outputs.files);
    if error.Some? {
      return;
    }
    var total := SumBytes(r.outputs.files);
    if total.None? {
      return Some(InvalidReceipt);
    }
    if r.outputs.fileCount != |r.outputs.files| || r.outputs.totalBytes != total.value
       || r.outputs.sha256 != env.hashOutputs(r.outputs.files) {
      return Some(InvalidReceipt);
    }
    if report.receiptSha256 != env.hashReceipt(r) || !ValidProjectId(r.requiredPreviousProjectId)
       || r.requiredPreviousProjectId != r.context.ownership.projectId {
      return Some(InvalidReceipt);
    }
    if r.previousOwnership.Some? {
      var previous := r.previousOwnership.value;
      if !ValidProjectId(previous.projectId) || !ValidSha256(previous.receiptSha256)
         || env.blank(previous.sitePackage)
         || previous.projectId != r.requiredPreviousProjectId
         || previous.receiptSha256 == report.receiptSha256 {
        return Some(InvalidReceipt);
      }
    }
    return None;
  }

  function ReportOf(env: Environment, receipt: ArtifactReceipt): BuildReport {
    BuildReport(BUILD_REPORT_VERSION, env.hashReceipt(receipt), receipt)
  }

  method NewReport(env: Environment, receipt: ArtifactReceipt) returns (r: Result<BuildReport, ArtifactError>)
    ensures r.Ok? <==> ReportOk(env, ReportOf(env, receipt))
    ensures r.Ok? ==> r.value == ReportOf(env, receipt)
  {
    var report := BuildReport(BUILD_REPORT_VERSION, env.hashReceipt(receipt), receipt);
    var error := ValidateReport(env, report);
    return if error.Some? then Err(error.value) else Ok(report);
  }

  // The report of a freshly built receipt validates, unless a previous owner is named that is malformed,
  // belongs to another project, or names this very receipt.
  lemma FreshReportValidIff(
    env: Environment, context: BuildContext, files: seq<OutputFile>, previous: Option<PreviousOwnership>)
    requires Accepted(env, context, files)
    ensures var receipt := ReceiptOf(env, context, files, previous);
      ReportOk(env, ReportOf(env, receipt))
      <==> PreviousOk(env, previous, context.ownership.projectId, env.hashReceipt(receipt))
  {
    NormalizeIdempotent(env, Sorted(context));
  }

  lemma FreshReportValid(env: Environment, context: BuildContext, files: seq<OutputFile>)
    requires Accepted(env, context, files)
    ensures ReportOk(env, ReportOf(env, ReceiptOf(env, context, files, None)))
  {
    FreshReportValidIff(env, context, files, None);
  }

  // The reports that validate are exactly the ones that building from their own contents produces again.
  lemma ValidReportRebuilds(env: Environment, report: BuildReport)
    ensures var r := report.receipt;
      ReportOk(env, report) <==>
        && Accepted(env, r.context, r.outputs.files)
        && report == ReportOf(env, ReceiptOf(env, r.context, r.outputs.files, r.previousOwnership))
        && PreviousOk(env, r.previousOwnership, r.context.ownership.projectId, report.receiptSha256)
  {
    var r := report.receipt;
    if ReportOk(env, report) {
      SortOfStrict(r.outputs.files, OutputPath);
    }
    if Accepted(env, r.context, r.outputs.files)
       && report == ReportOf(env, ReceiptOf(env, r.context, r.outputs.files, r.previousOwnership)) {
      FreshReportValidIff(env, r.context, r.outputs.files, r.previousOwnership);
    }
  }
}
