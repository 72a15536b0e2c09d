// finalize_adaptive_assets: checks first, then publication (pliego-assets, adaptive.rs).
//
// The format probes of a staged artifact and the hash are uninterpreted.  Of a plan only the parts used here
// are modelled: its jobs, its budget profiles, and the source ids and pins the job checks refer to.
module Finalize {
  import opened Prelude
  import opened Text
  import opened Planner
  import opened PlannerAgreement
  import opened Publish
  import B = Budgets

  const MAX_ARTIFACT_BYTES: nat := 2147483648
  const MAX_RECIPE_ARTIFACT_BYTES: nat := 8589934592

  datatype Probes = Probes(hash: Hash, artifactOk: (AssetJob, Bytes) -> bool)

  datatype Plan = Plan(
    jobs: seq<AssetJob>, profiles: seq<B.DeviceBudgetProfile>, sources: set<string>, pins: set<Toolchain>)

  // SHA-256 in lower-case hexadecimal (section 6.2 of FIPS 180-4).
  ghost predicate HexDigests(hash: Hash) {
    forall content :: |hash(content)| == 64 && Hexadecimal(hash(content))
  }

  predicate Hexadecimal(s: string) {
    forall c :: c in s ==> '0' <= c <= '9' || 'a' <= c <= 'f'
  }

  function MediaType(f: ArtifactFormat): string {
    match f
    case AvifFile => "image/avif"
    case WebpFile => "image/webp"
    case JpegFile => "image/jpeg"
    case Mp4File => "video/mp4"
    case WebmFile => "video/webm"
    case Woff2File => "font/woff2"
    case GlbFile => "model/gltf-binary"
  }

  // ---- Candidates ------------------------------------------------------------------------------------

  function DestinationFile(variantId: string, digest: string, format: ArtifactFormat): string
    requires |digest| >= 16
  {
    variantId + ("." + (digest[..16] + ("." + Extension(format))))
  }

  function Destination(sourceId: string, variantId: string, digest: string, format: ArtifactFormat): string
    requires |digest| >= 16
  {
    "assets" + "/" + (sourceId + "/" + DestinationFile(variantId, digest, format))
  }

  predicate StagedOk(files: Store, job: AssetJob) {
    job.stagingPath in files && 0 < |files[job.stagingPath]| <= MAX_ARTIFACT_BYTES
  }

  ghost predicate AllStaged(files: Store, jobs: seq<AssetJob>, n: nat)
    requires n <= |jobs|
  {
    forall i :: 0 <= i < n ==> StagedOk(files, jobs[i])
  }

  function BytesTo(files: Store, jobs: seq<AssetJob>, n: nat): nat
    requires n <= |jobs|
  {
    if n == 0 then 0
    else
      BytesTo(files, jobs, n - 1)
        + (if jobs[n - 1].stagingPath in files then |files[jobs[n - 1].stagingPath]| else 0)
  }

  function CandidateOf(hash: Hash, files: Store, job: AssetJob): Candidate
    requires StagedOk(files, job) && |hash(files[job.stagingPath])| >= 16
  {
    var content := files[job.stagingPath];
    var digest := hash(content);
    Candidate(content, job.stagingPath, Destination(job.sourceId, job.variantId, digest, job.format), digest)
  }

  function VariantOf(hash: Hash, files: Store, job: AssetJob): B.PublishedVariant
    requires StagedOk(files, job) && |hash(files[job.stagingPath])| >= 16
  {
    var c := CandidateOf(hash, files, job);
    B.PublishedVariant(
      job.id, c.path, MediaType(job.format), job.selectionGroup, |c.content|, job.policy,
      job.estimatedDecodedBytes, job.estimatedTriangles, job.estimatedDrawCalls)
  }

  ghost function Candidates(hash: Hash, files: Store, jobs: seq<AssetJob>, n: nat): (cs: seq<Candidate>)
    requires HexDigests(hash) && n <= |jobs| && AllStaged(files, jobs, n)
    ensures |cs| == n && forall i :: 0 <= i < n ==> cs[i] == CandidateOf(hash, files, jobs[i])
  {
    if n == 0 then [] else Candidates(hash, files, jobs, n - 1) + [CandidateOf(hash, files, jobs[n - 1])]
  }

  ghost function Variants(hash: Hash, files: Store, jobs: seq<AssetJob>, n: nat): (vs: seq<B.PublishedVariant>)
    requires HexDigests(hash) && n <= |jobs| && AllStaged(files, jobs, n)
    ensures |vs| == n && forall i :: 0 <= i < n ==> vs[i] == VariantOf(hash, files, jobs[i])
  {
    if n == 0 then [] else Variants(hash, files, jobs, n - 1) + [VariantOf(hash, files, jobs[n - 1])]
  }

  // What is read, where it goes, and what the manifest says of it, field by field.
  ghost predicate Describes(hash: Hash, content: Bytes, job: AssetJob, c: Candidate, v: B.PublishedVariant)
    requires HexDigests(hash)
  {
    && c.content == content && c.staged == job.stagingPath && c.sha256 == hash(content)
    && c.path == "assets/" + job.sourceId + "/" + job.variantId + "." + hash(content)[..16] + "." + Extension(job.format)
    && FormatNames(job.format, Extension(job.format), v.mediaType)
    && v.id == job.id && v.path == c.path
    && v.bytes == |content| && v.selectionGroup == job.selectionGroup && v.policy == job.policy
    && v.estimatedDecodedBytes == job.estimatedDecodedBytes
    && v.estimatedTriangles == job.estimatedTriangles && v.estimatedDrawCalls == job.estimatedDrawCalls
  }

  // The extension of a format and its media type.
  predicate FormatNames(f: ArtifactFormat, extension: string, mediaType: string) {
    match f
    case AvifFile => extension == "avif" && mediaType == "image/avif"
    case WebpFile => extension == "webp" && mediaType == "image/webp"
    case JpegFile => extension == "jpg" && mediaType == "image/jpeg"
    case Mp4File => extension == "mp4" && mediaType == "video/mp4"
    case WebmFile => extension == "webm" && mediaType == "video/webm"
    case Woff2File => extension == "woff2" && mediaType == "font/woff2"
    case GlbFile => extension == "glb" && mediaType == "model/gltf-binary"
  }

  lemma DestinationText(sourceId: string, variantId: string, digest: string, format: ArtifactFormat)
    requires |digest| >= 16
    ensures Destination(sourceId, variantId, digest, format)
      == "assets/" + sourceId + "/" + variantId + "." + digest[..16] + "." + Extension(format)
  {
    var d, e := digest[..16], "." + Extension(format);
    var tail := d + e;
    assert variantId + ("." + tail) == variantId + "." + d + e;
    assert "assets" + "/" == "assets/";
    assert "assets/" + (sourceId + "/" + (variantId + "." + d + e)) == "assets/" + sourceId + "/" + variantId + "." + d + e;
    assert "assets/" + sourceId + "/" + variantId + "." + d + e
      == "assets/" + sourceId + "/" + variantId + "." + d + "." + Extension(format);
  }

  // Every staged file is described as it is, in the order of the jobs.
  lemma ManifestDescribes(hash: Hash, files: Store, jobs: seq<AssetJob>, i: nat)
    requires HexDigests(hash) && AllStaged(files, jobs, |jobs|) && i < |jobs|
    ensures |Candidates(hash, files, jobs, |jobs|)| == |Variants(hash, files, jobs, |jobs|)| == |jobs|
    ensures StagedOk(files, jobs[i]) && Describes(
      hash, files[jobs[i].stagingPath], jobs[i], Candidates(hash, files, jobs, |jobs|)[i], Variants(hash, files, jobs, |jobs|)[i])
  {
    assert StagedOk(files, jobs[i]);
    DestinationText(jobs[i].sourceId, jobs[i].variantId, hash(files[jobs[i].stagingPath]), jobs[i].format);
    hide Destination, DestinationFile;
  }

  // ---- The checks ------------------------------------------------------------------------------------

  predicate Passed(results: seq<B.BudgetResult>) {
    forall i :: 0 <= i < |results| ==> results[i].pass
  }

  ghost predicate AllPass(profiles: seq<B.DeviceBudgetProfile>, variants: seq<B.PublishedVariant>) {
    !B.ProfileOverflows(profiles, |profiles|, variants) && Passed(B.AllResults(profiles, |profiles|, variants))
  }

  ghost predicate ArtifactsOk(probes: Probes, files: Store, jobs: seq<AssetJob>, n: nat)
    requires n <= |jobs| && AllStaged(files, jobs, n)
  {
    forall i :: 0 <= i < n ==> probes.artifactOk(jobs[i], files[jobs[i].stagingPath])
  }

  // A candidate may go to its destination: the path is safe, and free or already holding the same digest.
  predicate DestinationOk(hash: Hash, files: Store, c: Candidate) {
    RelativePathOk(c.path) && (c.path in files ==> hash(files[c.path]) == c.sha256)
  }

  // All checks that come before the destinations are looked at.
  ghost predicate Checked(probes: Probes, files: Store, plan: Plan)
    requires HexDigests(probes.hash)
  {
    var jobs := plan.jobs;
    && JobsOk(jobs, plan.sources, plan.pins)
    && AllStaged(files, jobs, |jobs|)
    && BytesTo(files, jobs, |jobs|) <= MAX_RECIPE_ARTIFACT_BYTES
    && ArtifactsOk(probes, files, jobs, |jobs|)
    && AllPass(plan.profiles, Variants(probes.hash, files, jobs, |jobs|))
  }

  predicate DestinationsOk(hash: Hash, files: Store, cs: seq<Candidate>) {
    forall i :: 0 <= i < |cs| ==> DestinationOk(hash, files, cs[i])
  }

  // Everything that is checked before the first file is published.
  ghost predicate Publishable(probes: Probes, files: Store, plan: Plan)
    requires HexDigests(probes.hash)
  {
    && Checked(probes, files, plan)
    && DestinationsOk(probes.hash, files, Candidates(probes.hash, files, plan.jobs, |plan.jobs|))
  }

  lemma {:induction false} BytesGrow(files: Store, jobs: seq<AssetJob>, m: nat, n: nat)
    requires m <= n <= |jobs|
    ensures BytesTo(files, jobs, m) <= BytesTo(files, jobs, n)
    decreases n
  {
    if m < n {
      BytesGrow(files, jobs, m, n - 1);
    }
  }

  method InspectStaged(files: Store, jobs: seq<AssetJob>) returns (ok: bool)
    ensures ok <==> AllStaged(files, jobs, |jobs|) && BytesTo(files, jobs, |jobs|) <= MAX_RECIPE_ARTIFACT_BYTES
  {
    var total := 0;
    for i := 0 to |jobs|
      invariant AllStaged(files, jobs, i) && total == BytesTo(files, jobs, i) <= MAX_RECIPE_ARTIFACT_BYTES
    {
      if !StagedOk(files, jobs[i]) {
        return false;
      }
      BytesGrow(files, jobs, i + 1, |jobs|);
      total := total + |files[jobs[i].stagingPath]|;
      if total >= TWO_TO_THE_64 || total > MAX_RECIPE_ARTIFACT_BYTES {
        return false;
      }
    }
    return true;
  }

  method BuildCandidates(probes: Probes, files: Store, jobs: seq<AssetJob>) returns (ok: bool, cs: seq<Candidate>)
    requires HexDigests(probes.hash) && AllStaged(files, jobs, |jobs|)
    ensures ok <==> ArtifactsOk(probes, files, jobs, |jobs|)
    ensures ok ==> cs == Candidates(probes.hash, files, jobs, |jobs|)
  {
    hide CandidateOf;
    cs := [];
    for i := 0 to |jobs|
      invariant ArtifactsOk(probes, files, jobs, i) && cs == Candidates(probes.hash, files, jobs, i)
    {
      assert StagedOk(files, jobs[i]);
      if !probes.artifactOk(jobs[i], files[jobs[i].stagingPath]) {
        return false, cs;
      }
      cs := cs + [CandidateOf(probes.hash, files, jobs[i])];
    }
    return true, cs;
  }

  method CollectVariants(probes: Probes, files: Store, jobs: seq<AssetJob>) returns (variants: seq<B.PublishedVariant>)
    requires HexDigests(probes.hash) && AllStaged(files, jobs, |jobs|)
    ensures variants == Variants(probes.hash, files, jobs, |jobs|)
  {
    variants := [];
    for i := 0 to |jobs|
      invariant variants == Variants(probes.hash, files, jobs, i)
    {
      assert StagedOk(files, jobs[i]);
      variants := variants + [VariantOf(probes.hash, files, jobs[i])];
    }
  }

  method CheckPassed(results: seq<B.BudgetResult>) returns (ok: bool)
    ensures ok <==> Passed(results)
  {
    for i := 0 to |results|
      invariant forall k :: 0 <= k < i ==> results[k].pass
    {
      if !results[i].pass {
        return false;
      }
    }
    return true;
  }

  method CheckBudgets(profiles: seq<B.DeviceBudgetProfile>, variants: seq<B.PublishedVariant>) returns (ok: bool)
    ensures ok <==> AllPass(profiles, variants)
  {
    var results := B.EvaluateBudgets(profiles, variants);
    if results.None? {
      return false;
    }
    ok := CheckPassed(results.value);
  }

  method CheckDestinations(hash: Hash, files: Store, cs: seq<Candidate>) returns (ok: bool)
    ensures ok <==> DestinationsOk(hash, files, cs)
  {
    for i := 0 to |cs|
      invariant forall k :: 0 <= k < i ==> DestinationOk(hash, files, cs[k])
    {
      if !DestinationOk(hash, files, cs[i]) {
        return false;
      }
    }
    return true;
  }

  // What publishing makes of the store, and whether it succeeded.
  ghost function Outcome(probes: Probes, files: Store, plan: Plan, faults: seq<Fault>): (Store, bool)
    requires HexDigests(probes.hash) && |faults| == |plan.jobs|
  {
    if Publishable(probes, files, plan)
    then PublishTo(probes.hash, files, Candidates(probes.hash, files, plan.jobs, |plan.jobs|), faults, |plan.jobs|)
    else (files, false)
  }

  // Everything up to publication; it only reads the store.
  method Prepare(probes: Probes, files: Store, plan: Plan)
    returns (ok: bool, cs: seq<Candidate>, variants: seq<B.PublishedVariant>)
    requires HexDigests(probes.hash)
    ensures ok <==> Publishable(probes, files, plan)
    ensures ok ==> cs == Candidates(probes.hash, files, plan.jobs, |plan.jobs|)
    ensures ok ==> variants == Variants(probes.hash, files, plan.jobs, |plan.jobs|)
  {
    cs, variants := [], [];
    if !JobsOk(plan.jobs, plan.sources, plan.pins) {
      return false, cs, variants;
    }
    ok := InspectStaged(files, plan.jobs);
    if !ok {
      return;
    }
    ok, cs := BuildCandidates(probes, files, plan.jobs);
    if !ok {
      return;
    }
    variants := CollectVariants(probes, files, plan.jobs);
    ok := CheckBudgets(plan.profiles, variants);
    if !ok {
      return;
    }
    ok := CheckDestinations(probes.hash, files, cs);
  }

  method FinalizeAssets(probes: Probes, store: FileStore, plan: Plan, faults: seq<Fault>)
    returns (manifest: Option<seq<B.PublishedVariant>>)
    requires HexDigests(probes.hash) && |faults| == |plan.jobs|
    modifies store
    ensures (store.files, manifest.Some?) == Outcome(probes, old(store.files), plan, faults)
    ensures manifest.Some? ==>
      && AllStaged(old(store.files), plan.jobs, |plan.jobs|)
      && manifest.value == Variants(probes.hash, old(store.files), plan.jobs, |plan.jobs|)
  {
    var ok, cs, variants := Prepare(probes, store.files, plan);
    if !ok {
      return None;
    }
    ok := store.PublishAll(probes.hash, cs, faults);
    return if ok then Some(variants) else None;
  }

  // ---- Destinations and staged files are all different -----------------------------------------------

  lemma HexPlain(digest: string)
    requires |digest| >= 16 && Hexadecimal(digest)
    ensures PlainText(digest[..16])
  {
    assert forall c :: c in digest[..16] ==> c in digest;
  }

  lemma DestinationSplits(sourceId: string, variantId: string, digest: string, format: ArtifactFormat)
    requires ValidIdentifier(sourceId) && ValidIdentifier(variantId) && |digest| >= 16 && Hexadecimal(digest)
    ensures Split(Destination(sourceId, variantId, digest, format))
      == ["assets", sourceId, DestinationFile(variantId, digest, format)]
  {
    IdentifierPlain(sourceId);
    IdentifierPlain(variantId);
    var file := DestinationFile(variantId, digest, format);
    HexPlain(digest);
    SplitOne(file);
    SplitFirst(sourceId, file);
    SplitFirst("assets", sourceId + "/" + file);
  }

  lemma DestinationInjective(
    a: string, v: string, d: string, f: ArtifactFormat, b: string, w: string, e: string, g: ArtifactFormat)
    requires ValidIdentifier(a) && ValidIdentifier(v) && |d| >= 16 && Hexadecimal(d)
    requires ValidIdentifier(b) && ValidIdentifier(w) && |e| >= 16 && Hexadecimal(e)
    requires Destination(a, v, d, f) == Destination(b, w, e, g)
    ensures a == b && v == w
  {
    DestinationSplits(a, v, d, f);
    DestinationSplits(b, w, e, g);
    var s, t := Split(Destination(a, v, d, f)), Split(Destination(b, w, e, g));
    assert s[1] == a && t[1] == b && s[2] == DestinationFile(v, d, f) && t[2] == DestinationFile(w, e, g);
    IdentifierPlain(v);
    IdentifierPlain(w);
    DotInjective(v, d[..16] + ("." + Extension(f)), w, e[..16] + ("." + Extension(g)));
  }

  lemma StagedNotDestination(a: AssetJob, b: AssetJob, digest: string)
    requires Named(a) && |digest| >= 16
    ensures a.stagingPath != Destination(b.sourceId, b.variantId, digest, b.format)
  {
    assert a.stagingPath[0] == '.';
    assert Destination(b.sourceId, b.variantId, digest, b.format)[0] == 'a';
  }

  lemma JobsDiffer(jobs: seq<AssetJob>, sources: set<string>, pins: set<Toolchain>, i: nat, j: nat)
    requires JobsOk(jobs, sources, pins) && i < |jobs| && j < |jobs| && i != j
    ensures !(jobs[i].sourceId == jobs[j].sourceId && jobs[i].variantId == jobs[j].variantId)
    ensures jobs[i].stagingPath != jobs[j].stagingPath
  {
    AcceptedNames(jobs[i], sources, pins);
    AcceptedNames(jobs[j], sources, pins);
    assert JobId(jobs[i]) != JobId(jobs[j]);
    if jobs[i].stagingPath == jobs[j].stagingPath {
      StageInjective(
        jobs[i].sourceId, jobs[i].variantId, jobs[i].format, jobs[j].sourceId, jobs[j].variantId, jobs[j].format);
    }
  }

  lemma DestinationsDiffer(hash: Hash, jobs: seq<AssetJob>, sources: set<string>, pins: set<Toolchain>, files: Store, i: nat, j: nat)
    requires HexDigests(hash) && JobsOk(jobs, sources, pins) && AllStaged(files, jobs, |jobs|)
    requires i < |jobs| && j < |jobs| && i != j
    ensures CandidateOf(hash, files, jobs[i]).path != CandidateOf(hash, files, jobs[j]).path
  {
    JobsDiffer(jobs, sources, pins, i, j);
    AcceptedNames(jobs[i], sources, pins);
    AcceptedNames(jobs[j], sources, pins);
    var c, d := CandidateOf(hash, files, jobs[i]), CandidateOf(hash, files, jobs[j]);
    if c.path == d.path {
      DestinationInjective(
        jobs[i].sourceId, jobs[i].variantId, c.sha256, jobs[i].format,
        jobs[j].sourceId, jobs[j].variantId, d.sha256, jobs[j].format);
    }
  }

  lemma CandidatesSeparate(hash: Hash, jobs: seq<AssetJob>, sources: set<string>, pins: set<Toolchain>, files: Store)
    requires HexDigests(hash) && JobsOk(jobs, sources, pins) && AllStaged(files, jobs, |jobs|)
    ensures Separate(hash, files, Candidates(hash, files, jobs, |jobs|))
  {
    hide JobOk, Named, Destination, StagePath;
    var cs := Candidates(hash, files, jobs, |jobs|);
    forall i, j | 0 <= i < |cs| && 0 <= j < |cs| ensures cs[i].staged != cs[j].path {
      AcceptedNames(jobs[i], sources, pins);
      StagedNotDestination(jobs[i], jobs[j], cs[j].sha256);
    }
    forall i, j | 0 <= i < |cs| && 0 <= j < |cs| && i != j ensures cs[i].staged != cs[j].staged && cs[i].path != cs[j].path {
      JobsDiffer(jobs, sources, pins, i, j);
      DestinationsDiffer(hash, jobs, sources, pins, files, i, j);
    }
  }

  // ---- The guarantees --------------------------------------------------------------------------------

  // The destination of a staged file holds a file with the staged file's digest.
  ghost predicate HeldAtDestination(hash: Hash, files: Store, now: Store, job: AssetJob)
    requires HexDigests(hash)
  {
    && StagedOk(files, job)
    && var c := CandidateOf(hash, files, job);
       c.path in now && hash(now[c.path]) == c.sha256
  }

  // The file at path was staged for a job, and its bytes are at the job's destination.
  ghost predicate Moved(hash: Hash, files: Store, now: Store, jobs: seq<AssetJob>, path: string)
    requires HexDigests(hash)
  {
    exists i :: 0 <= i < |jobs| && jobs[i].stagingPath == path && HeldAtDestination(hash, files, now, jobs[i])
  }

  lemma GoneIsHeld(hash: Hash, files: Store, jobs: seq<AssetJob>, faults: seq<Fault>, i: nat)
    requires HexDigests(hash) && AllStaged(files, jobs, |jobs|) && |faults| == |jobs| && i < |jobs|
    requires Separate(hash, files, Candidates(hash, files, jobs, |jobs|))
    requires jobs[i].stagingPath !in PublishTo(hash, files, Candidates(hash, files, jobs, |jobs|), faults, |jobs|).0
    ensures HeldAtDestination(hash, files, PublishTo(hash, files, Candidates(hash, files, jobs, |jobs|), faults, |jobs|).0, jobs[i])
  {
    NothingLost(hash, files, Candidates(hash, files, jobs, |jobs|), faults, |jobs|, i);
  }

  lemma GoneIsMoved(probes: Probes, files: Store, plan: Plan, faults: seq<Fault>, path: string)
    requires HexDigests(probes.hash) && |faults| == |plan.jobs| && Publishable(probes, files, plan)
    requires path in files && path !in Outcome(probes, files, plan, faults).0
    requires Stages(Candidates(probes.hash, files, plan.jobs, |plan.jobs|), path)
    ensures Moved(probes.hash, files, Outcome(probes, files, plan, faults).0, plan.jobs, path)
  {
    var cs := Candidates(probes.hash, files, plan.jobs, |plan.jobs|);
    CandidatesSeparate(probes.hash, plan.jobs, plan.sources, plan.pins, files);
    var i :| 0 <= i < |cs| && cs[i].staged == path;
    GoneIsHeld(probes.hash, files, plan.jobs, faults, i);
  }

  // What was there is as it was, or its bytes are at their destination.
  ghost predicate KeptOrMoved(hash: Hash, files: Store, now: Store, jobs: seq<AssetJob>, path: string)
    requires HexDigests(hash)
  {
    path in files ==> if path in now then now[path] == files[path] else Moved(hash, files, now, jobs, path)
  }

  lemma PublishingKeeps(probes: Probes, files: Store, plan: Plan, faults: seq<Fault>, path: string)
    requires HexDigests(probes.hash) && |faults| == |plan.jobs| && Publishable(probes, files, plan) && path in files
    ensures KeptOrMoved(probes.hash, files, Outcome(probes, files, plan, faults).0, plan.jobs, path)
  {
    hide Moved, JobsOk, CandidateOf;
    var cs := Candidates(probes.hash, files, plan.jobs, |plan.jobs|);
    CandidatesSeparate(probes.hash, plan.jobs, plan.sources, plan.pins, files);
    NothingAltered(probes.hash, files, cs, faults, |cs|);
    if path !in Outcome(probes, files, plan, faults).0 {
      GoneIsMoved(probes, files, plan, faults, path);
    }
  }

  // Whatever faults happen, when and where: a failed check leaves the store as it was; no file that was there is
  // altered; only staged files disappear, and only once their bytes are at their destination.
  lemma NothingAlteredOrLost(probes: Probes, files: Store, plan: Plan, faults: seq<Fault>)
    requires HexDigests(probes.hash) && |faults| == |plan.jobs|
    ensures var (now, ok) := Outcome(probes, files, plan, faults);
      && (!Publishable(probes, files, plan) ==> now == files && !ok)
      && forall path :: KeptOrMoved(probes.hash, files, now, plan.jobs, path)
  {
    hide Publishable, Moved, Candidates, PublishTo;
    var now := Outcome(probes, files, plan, faults).0;
    forall path ensures KeptOrMoved(probes.hash, files, now, plan.jobs, path) {
      if Publishable(probes, files, plan) && path in files {
        PublishingKeeps(probes, files, plan, faults, path);
      }
    }
  }

  // On success every job's destination holds its digest and its staged file is gone.
  lemma SuccessIsComplete(probes: Probes, files: Store, plan: Plan, faults: seq<Fault>, i: nat)
    requires HexDigests(probes.hash) && |faults| == |plan.jobs| && Outcome(probes, files, plan, faults).1
    requires i < |plan.jobs|
    ensures HeldAtDestination(probes.hash, files, Outcome(probes, files, plan, faults).0, plan.jobs[i])
    ensures plan.jobs[i].stagingPath !in Outcome(probes, files, plan, faults).0
  {
    var cs := Candidates(probes.hash, files, plan.jobs, |plan.jobs|);
    CandidatesSeparate(probes.hash, plan.jobs, plan.sources, plan.pins, files);
    SuccessPublishes(probes.hash, files, cs, faults, |cs|, i);
  }

  // path is neither the staged file nor the destination of the job.
  ghost predicate NotOf(hash: Hash, files: Store, job: AssetJob, path: string)
    requires HexDigests(hash)
  {
    StagedOk(files, job) ==> path != job.stagingPath && path != CandidateOf(hash, files, job).path
  }

  // No other file appears, disappears or changes, whether it succeeds or not.
  lemma OtherFilesUntouched(probes: Probes, files: Store, plan: Plan, faults: seq<Fault>, path: string)
    requires HexDigests(probes.hash) && |faults| == |plan.jobs|
    requires forall i :: 0 <= i < |plan.jobs| ==> NotOf(probes.hash, files, plan.jobs[i], path)
    ensures var now := Outcome(probes, files, plan, faults).0;
      (path in now <==> path in files) && (path in files ==> now[path] == files[path])
  {
    if Publishable(probes, files, plan) {
      var cs := Candidates(probes.hash, files, plan.jobs, |plan.jobs|);
      forall i | 0 <= i < |cs| ensures path != cs[i].staged && path != cs[i].path {
        assert NotOf(probes.hash, files, plan.jobs[i], path);
      }
      OthersUntouched(probes.hash, files, cs, faults, |cs|, path);
    }
  }

  // All or nothing: without faults it succeeds exactly when all checks pass, and otherwise changes nothing.
  lemma AllOrNothing(probes: Probes, files: Store, plan: Plan, faults: seq<Fault>)
    requires HexDigests(probes.hash) && |faults| == |plan.jobs| && AllClear(faults)
    ensures Outcome(probes, files, plan, faults).1 <==> Publishable(probes, files, plan)
    ensures !Outcome(probes, files, plan, faults).1 ==> Outcome(probes, files, plan, faults).0 == files
  {
    if Publishable(probes, files, plan) {
      var cs := Candidates(probes.hash, files, plan.jobs, |plan.jobs|);
      CandidatesSeparate(probes.hash, plan.jobs, plan.sources, plan.pins, files);
      assert DestinationsFree(probes.hash, files, cs) by {
        forall i | 0 <= i < |cs| && cs[i].path in files ensures probes.hash(files[cs[i].path]) == cs[i].sha256 {
          assert DestinationOk(probes.hash, files, cs[i]);
        }
      }
      ClearSucceeds(probes.hash, files, cs, faults, |cs|);
    }
  }

  // ---- Trying again ----------------------------------------------------------------------------------

  // The staged files of all jobs are in both stores, with the same bytes.
  ghost predicate SameStaged(files: Store, now: Store, jobs: seq<AssetJob>) {
    forall i :: 0 <= i < |jobs| ==>
      && jobs[i].stagingPath in files && jobs[i].stagingPath in now
      && now[jobs[i].stagingPath] == files[jobs[i].stagingPath]
  }

  lemma {:induction false} SameBytes(files: Store, now: Store, jobs: seq<AssetJob>, n: nat)
    requires SameStaged(files, now, jobs) && n <= |jobs|
    ensures BytesTo(now, jobs, n) == BytesTo(files, jobs, n)
  {
    if n > 0 {
      SameBytes(files, now, jobs, n - 1);
    }
  }

  lemma SameChecks(probes: Probes, files: Store, now: Store, plan: Plan)
    requires HexDigests(probes.hash) && Checked(probes, files, plan) && SameStaged(files, now, plan.jobs)
    ensures Checked(probes, now, plan)
    ensures var n := |plan.jobs|;
      Candidates(probes.hash, now, plan.jobs, n) == Candidates(probes.hash, files, plan.jobs, n)
  {
    var jobs := plan.jobs;
    var n := |jobs|;
    hide JobsOk, AllPass, Destination;
    SameBytes(files, now, jobs, n);
    forall i | 0 <= i < n ensures StagedOk(now, jobs[i]) {
      assert StagedOk(files, jobs[i]);
    }
    forall i | 0 <= i < n
      ensures CandidateOf(probes.hash, now, jobs[i]) == CandidateOf(probes.hash, files, jobs[i])
      ensures VariantOf(probes.hash, now, jobs[i]) == VariantOf(probes.hash, files, jobs[i])
    {
    }
    assert Variants(probes.hash, now, jobs, n) == Variants(probes.hash, files, jobs, n);
  }

  lemma FirstFailed(probes: Probes, files: Store, plan: Plan, faults: seq<Fault>)
    requires HexDigests(probes.hash) && |faults| == |plan.jobs| && Publishable(probes, files, plan) && |plan.jobs| > 0
    requires !PublishTo(probes.hash, files, Candidates(probes.hash, files, plan.jobs, |plan.jobs|), faults, 1).1
    ensures var c, now := Candidates(probes.hash, files, plan.jobs, |plan.jobs|)[0], Outcome(probes, files, plan, faults).0;
      AgreeBut(files, now, c.path) && SameStaged(files, now, plan.jobs)
  {
    var cs := Candidates(probes.hash, files, plan.jobs, |plan.jobs|);
    CandidatesSeparate(probes.hash, plan.jobs, plan.sources, plan.pins, files);
    FirstFailureKeeps(probes.hash, files, cs, faults);
    StagedAgree(probes.hash, files, Outcome(probes, files, plan, faults).0, plan.jobs);
    hide Candidates, PublishTo, Publishable, Separate, AgreeBut, SameStaged;
  }

  lemma StagedAgree(hash: Hash, files: Store, now: Store, jobs: seq<AssetJob>)
    requires HexDigests(hash) && AllStaged(files, jobs, |jobs|) && |jobs| > 0
    requires Separate(hash, files, Candidates(hash, files, jobs, |jobs|))
    requires AgreeBut(files, now, Candidates(hash, files, jobs, |jobs|)[0].path)
    ensures SameStaged(files, now, jobs)
  {
    var cs := Candidates(hash, files, jobs, |jobs|);
    hide Destination;
    forall i | 0 <= i < |jobs| ensures jobs[i].stagingPath != cs[0].path && StagedOk(files, jobs[i]) {
      assert cs[i].staged != cs[0].path;
    }
  }

  lemma FirstPublished(probes: Probes, files: Store, plan: Plan, faults: seq<Fault>)
    requires HexDigests(probes.hash) && |faults| == |plan.jobs| && Publishable(probes, files, plan) && |plan.jobs| > 0
    requires PublishTo(probes.hash, files, Candidates(probes.hash, files, plan.jobs, |plan.jobs|), faults, 1).1
    ensures plan.jobs[0].stagingPath !in Outcome(probes, files, plan, faults).0
  {
    var cs := Candidates(probes.hash, files, plan.jobs, |plan.jobs|);
    CandidatesSeparate(probes.hash, plan.jobs, plan.sources, plan.pins, files);
    SuccessPublishes(probes.hash, files, cs, faults, 1, 0);
    NotStagedAgain(probes.hash, files, cs, faults, 1, |cs|, cs[0].staged);
  }

  // After a failure the same plan can be finalised once more exactly when it was the first file that failed,
  // its staged file being there still, and no broken copy is left at its destination.  Once a file has been
  // published the plan is not publishable, unless somebody stages that file again.
  lemma RetryIff(probes: Probes, files: Store, plan: Plan, faults: seq<Fault>)
    requires HexDigests(probes.hash) && |faults| == |plan.jobs| && Publishable(probes, files, plan)
    requires !Outcome(probes, files, plan, faults).1
    ensures |plan.jobs| > 0
    ensures var c, now := Candidates(probes.hash, files, plan.jobs, |plan.jobs|)[0], Outcome(probes, files, plan, faults).0;
      Publishable(probes, now, plan) <==>
        plan.jobs[0].stagingPath in now && (c.path in now ==> probes.hash(now[c.path]) == c.sha256)
  {
    var cs := Candidates(probes.hash, files, plan.jobs, |plan.jobs|);
    var now := Outcome(probes, files, plan, faults).0;
    assert |plan.jobs| > 0;
    if PublishTo(probes.hash, files, cs, faults, 1).1 {
      FirstPublished(probes, files, plan, faults);
      assert !StagedOk(now, plan.jobs[0]);
    } else {
      FirstFailed(probes, files, plan, faults);
      SameChecks(probes, files, now, plan);
      CandidatesSeparate(probes.hash, plan.jobs, plan.sources, plan.pins, files);
      RetryDestinations(probes.hash, files, now, cs);
    }
    hide Checked, DestinationsOk, PublishTo, Candidates, Separate, AgreeBut;
  }

  // Every plan of at least two files can be stranded so: one staged file that cannot be removed is enough.
  lemma OneFaultStrands(probes: Probes, files: Store, plan: Plan) returns (faults: seq<Fault>)
    requires HexDigests(probes.hash) && Publishable(probes, files, plan) && |plan.jobs| >= 2
    ensures |faults| == |plan.jobs| && faults[1] == RemoveFails && forall i :: 0 <= i < |faults| && i != 1 ==> faults[i] == NoFault
    ensures var (now, ok) := Outcome(probes, files, plan, faults);
      !ok && !Publishable(probes, now, plan)
  {
    faults := seq(|plan.jobs|, i => if i == 1 then RemoveFails else NoFault);
    var cs := Candidates(probes.hash, files, plan.jobs, |plan.jobs|);
    assert DestinationOk(probes.hash, files, cs[0]) && probes.hash(cs[0].content) == cs[0].sha256;
    SecondRemovalFails(probes.hash, files, cs, faults);
    FirstPublished(probes, files, plan, faults);
    assert !StagedOk(Outcome(probes, files, plan, faults).0, plan.jobs[0]);
    hide PublishTo, Candidates, JobsOk, AllPass, DestinationsOk;
  }

  lemma RetryDestinations(hash: Hash, files: Store, now: Store, cs: seq<Candidate>)
    requires Separate(hash, files, cs) && DestinationsOk(hash, files, cs) && |cs| > 0 && AgreeBut(files, now, cs[0].path)
    ensures DestinationsOk(hash, now, cs) <==> (cs[0].path in now ==> hash(now[cs[0].path]) == cs[0].sha256)
  {
    hide RelativePathOk;
    forall i | 0 < i < |cs| ensures DestinationOk(hash, now, cs[i]) {
      assert DestinationOk(hash, files, cs[i]) && cs[i].path != cs[0].path;
    }
    assert DestinationOk(hash, files, cs[0]);
  }

  // ---- What clients receive of an accepted plan ------------------------------------------------------

  // Clients that want reduced motion, that save data, or of the universal tier never receive a video or a
  // scene; images and fonts reach every tier they are offered to, unless data is saved and they are not
  // needed at once.  What is preloaded or of high priority is loaded eagerly.
  lemma AcceptedDelivery(hash: Hash, files: Store, plan: Plan, c: B.RuntimeConstraints)
    requires HexDigests(hash) && JobsOk(plan.jobs, plan.sources, plan.pins) && AllStaged(files, plan.jobs, |plan.jobs|)
    ensures var jobs, variants := plan.jobs, Variants(hash, files, plan.jobs, |plan.jobs|);
      var directives, origins := B.DeliveryTo(variants, c, |variants|), B.OriginsTo(variants, c, |variants|);
      && |directives| == |origins|
      && (forall k :: 0 <= k < |origins| ==> ReceivedWell(jobs, directives[k], origins[k], c))
      && (forall i :: 0 <= i < |jobs| && (jobs[i].operation.ImageJob? || jobs[i].operation.FontJob?) ==>
            (i in origins <==> c.tier in jobs[i].policy.tiers && (c.saveData ==> jobs[i].policy.delivery == B.Initial)))
  {
    var jobs, variants := plan.jobs, Variants(hash, files, plan.jobs, |plan.jobs|);
    forall i | 0 <= i < |jobs| ensures PolicyOk(jobs[i].policy, OperationFamily(jobs[i].operation)) {
      assert JobOk(jobs[i], plan.sources, plan.pins);
    }
    assert PoliciesOf(jobs, variants);
    hide JobsOk, VariantOf, StagedOk, PoliciesOf, ReceivedWell;
    DeliveryOf(jobs, variants, c);
  }

  ghost predicate PoliciesOf(jobs: seq<AssetJob>, variants: seq<B.PublishedVariant>) {
    && |variants| == |jobs|
    && forall i :: 0 <= i < |jobs| ==>
         variants[i].policy == jobs[i].policy && PolicyOk(jobs[i].policy, OperationFamily(jobs[i].operation))
  }

  lemma DeliveryOf(jobs: seq<AssetJob>, variants: seq<B.PublishedVariant>, c: B.RuntimeConstraints)
    requires PoliciesOf(jobs, variants)
    ensures var directives, origins := B.DeliveryTo(variants, c, |variants|), B.OriginsTo(variants, c, |variants|);
      && |directives| == |origins|
      && (forall k :: 0 <= k < |origins| ==> ReceivedWell(jobs, directives[k], origins[k], c))
      && (forall i :: 0 <= i < |jobs| && (jobs[i].operation.ImageJob? || jobs[i].operation.FontJob?) ==>
            (i in origins <==> c.tier in jobs[i].policy.tiers && (c.saveData ==> jobs[i].policy.delivery == B.Initial)))
  {
    B.DeliveryFields(variants, c);
    var directives, origins := B.DeliveryTo(variants, c, |variants|), B.OriginsTo(variants, c, |variants|);
    forall k | 0 <= k < |origins| ensures ReceivedWell(jobs, directives[k], origins[k], c) {
      assert origins[k] in origins && B.Directs(directives[k], variants[origins[k]]);
    }
  }

  predicate ReceivedWell(jobs: seq<AssetJob>, d: B.DeliveryDirective, i: int, c: B.RuntimeConstraints) {
    && 0 <= i < |jobs|
    && (d.preload || d.fetchPriority == B.High ==> d.strategy == B.Eager)
    && (c.reducedMotion || c.saveData || c.tier == B.Universal ==> jobs[i].operation.ImageJob? || jobs[i].operation.FontJob?)
  }

  // ---- A plan that validates and can never be published ----------------------------------------------

  lemma DestinationFilePlain(v: string, digest: string, format: ArtifactFormat)
    requires ValidIdentifier(v) && |digest| >= 16 && Hexadecimal(digest)
    ensures var file := DestinationFile(v, digest, format);
      && PlainText(file) && 0 < |file| <= 151 && file[|file| - 1] !in {'.', ' '} && file != ".." && file != "."
      && DotParts(file)[0] == v
  {
    IdentifierPlain(v);
    HexPlain(digest);
    var e := Extension(format);
    DotPartsFirst(v, digest[..16] + ("." + e));
    assert DestinationFile(v, digest, format)[|DestinationFile(v, digest, format)| - 1] == e[|e| - 1] && e[|e| - 1] in e;
  }

  lemma AssetsDirectory()
    ensures SegmentOk("assets")
  {
    DotPartsOne("assets");
    assert |Upper("assets")| == 6 && Upper("assets")[0] == 'A';
  }

  lemma DestinationTextOk(sourceId: string, file: string)
    requires ValidIdentifier(sourceId) && PlainText(file) && |file| <= 151
    ensures TextOk("assets" + "/" + (sourceId + "/" + file))
  {
    IdentifierPlain(sourceId);
  }

  // The destination of an accepted job is a safe path exactly when the variant id is no device name.
  lemma DestinationSafeIff(sourceId: string, variantId: string, digest: string, format: ArtifactFormat)
    requires ValidIdentifier(sourceId) && ValidIdentifier(variantId) && !WindowsReserved(sourceId)
    requires |digest| >= 16 && Hexadecimal(digest)
    ensures RelativePathOk(Destination(sourceId, variantId, digest, format)) <==> !WindowsReserved(variantId)
  {
    var file := DestinationFile(variantId, digest, format);
    DestinationSplits(sourceId, variantId, digest, format);
    DestinationFilePlain(variantId, digest, format);
    DestinationTextOk(sourceId, file);
    AssetsDirectory();
    IdentifierPlain(sourceId);
    assert SegmentOk(sourceId) by {
      assert '.' !in sourceId;
    }
    IdentifierReserved(variantId);
    assert SegmentOk(file) <==> !WindowsReserved(variantId);
    PathOfThree(Destination(sourceId, variantId, digest, format), "assets", sourceId, file);
  }

  lemma DestinationOkIff(probes: Probes, files: Store, plan: Plan, i: nat)
    requires HexDigests(probes.hash) && JobsOk(plan.jobs, plan.sources, plan.pins)
    requires AllStaged(files, plan.jobs, |plan.jobs|) && i < |plan.jobs|
    ensures var c := Candidates(probes.hash, files, plan.jobs, |plan.jobs|)[i];
      DestinationOk(probes.hash, files, c) <==>
        !WindowsReserved(plan.jobs[i].variantId) && (c.path in files ==> probes.hash(files[c.path]) == c.sha256)
  {
    var job := plan.jobs[i];
    var c := Candidates(probes.hash, files, plan.jobs, |plan.jobs|)[i];
    AcceptedNames(job, plan.sources, plan.pins);
    DestinationSafeIff(job.sourceId, job.variantId, c.sha256, job.format);
  }

  predicate NoDeviceVariant(jobs: seq<AssetJob>) {
    forall i :: 0 <= i < |jobs| ==> !WindowsReserved(jobs[i].variantId)
  }

  lemma DestinationsOkIff(probes: Probes, files: Store, plan: Plan)
    requires HexDigests(probes.hash) && JobsOk(plan.jobs, plan.sources, plan.pins)
    requires AllStaged(files, plan.jobs, |plan.jobs|)
    ensures var cs := Candidates(probes.hash, files, plan.jobs, |plan.jobs|);
      DestinationsOk(probes.hash, files, cs) <==> NoDeviceVariant(plan.jobs) && DestinationsFree(probes.hash, files, cs)
  {
    hide WindowsReserved, JobsOk, DestinationOk, CandidateOf, StagedOk;
    var cs := Candidates(probes.hash, files, plan.jobs, |plan.jobs|);
    forall i | 0 <= i < |cs|
      ensures DestinationOk(probes.hash, files, cs[i]) <==>
        !WindowsReserved(plan.jobs[i].variantId) && (cs[i].path in files ==> probes.hash(files[cs[i].path]) == cs[i].sha256)
    {
      DestinationOkIff(probes, files, plan, i);
    }
  }

  // A plan that passes every other check is publishable exactly when no variant is named after a device and
  // every destination is free, or holds what belongs there already.
  lemma PublishableIff(probes: Probes, files: Store, plan: Plan)
    requires HexDigests(probes.hash) && Checked(probes, files, plan)
    ensures Publishable(probes, files, plan) <==>
      && NoDeviceVariant(plan.jobs)
      && DestinationsFree(probes.hash, files, Candidates(probes.hash, files, plan.jobs, |plan.jobs|))
  {
    DestinationsOkIff(probes, files, plan);
    hide DestinationsOk, NoDeviceVariant, DestinationsFree;
  }

  // validate_plan looks at the staging path, whose stem is the asset id, and so lets a variant called "con"
  // through; the destination check then rejects it on every store.
  lemma DeviceVariantNeverPublished(probes: Probes, files: Store, plan: Plan, i: nat)
    requires HexDigests(probes.hash) && i < |plan.jobs| && WindowsReserved(plan.jobs[i].variantId)
    ensures !Publishable(probes, files, plan)
  {
    if JobsOk(plan.jobs, plan.sources, plan.pins) && AllStaged(files, plan.jobs, |plan.jobs|) {
      DestinationOkIff(probes, files, plan, i);
    }
  }

  // Such plans exist: this one comes from a valid recipe, passes all job checks, and whatever is staged for it,
  // and whatever the budgets and the probes say, it is never published.
  lemma ValidPlanNeverPublished(probes: Probes, files: Store, profiles: seq<B.DeviceBudgetProfile>)
    requires HexDigests(probes.hash)
    ensures var assets, pins := OneFont("hero", "con"), {Fonttools};
      var plan := Plan([OneFontJob("hero", "con")], profiles, SourceIds(assets, |assets|), pins);
      && AssetsOk(assets, pins) && AllJobs(assets, |assets|) == Some(plan.jobs)
      && JobsOk(plan.jobs, plan.sources, plan.pins)
      && !Publishable(probes, files, plan)
  {
    var assets, pins := OneFont("hero", "con"), {Fonttools};
    ValidPlanWithDeviceVariant();
    DeviceVariantNeverPublished(
      probes, files, Plan([OneFontJob("hero", "con")], profiles, SourceIds(assets, |assets|), pins), 0);
  }
}
