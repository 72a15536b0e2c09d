// The planner's jobs against the independent validator (pliego-assets, adaptive.rs).
module PlannerAgreement {
  import opened Prelude
  import opened Text
  import opened Sorting
  import opened Planner
  import B = Budgets

  // ---- Strings ---------------------------------------------------------------------------------------

  lemma IdentifierPlain(s: string)
    requires ValidIdentifier(s)
    ensures s != "" && '.' !in s && '/' !in s && '\\' !in s && ':' !in s && ' ' !in s && 0 as char !in s
  {
  }

  lemma {:induction false} DotPartsOne(a: string)
    requires '.' !in a
    ensures DotParts(a) == [a]
  {
    if a != "" {
      assert a[0] in a && forall c :: c in a[1..] ==> c in a;
      DotPartsOne(a[1..]);
      assert [a[0]] + a[1..] == a;
    }
  }

  lemma {:induction false} DotPartsFirst(a: string, rest: string)
    requires '.' !in a
    ensures DotParts(a + ("." + rest)) == [a] + DotParts(rest)
  {
    var s := a + ("." + rest);
    if a == "" {
      assert s == "." + rest && s[1..] == rest;
    } else {
      assert a[0] in a && forall c :: c in a[1..] ==> c in a;
      DotPartsFirst(a[1..], rest);
      assert s[1..] == a[1..] + ("." + rest);
      assert s[0] == a[0] && [a[0]] + a[1..] == a;
      assert ([a[1..]] + DotParts(rest))[1..] == DotParts(rest);
    }
  }

  lemma DotNotBefore(a: string, s: string, b: string, t: string)
    requires '.' !in a && a + ("." + s) == b + ("." + t)
    ensures |a| <= |b|
  {
    var text := a + ("." + s);
    forall i | 0 <= i < |a| ensures text[i] != '.' {
      assert text[i] == a[i] && a[i] in a;
    }
    assert text[|b|] == '.';
  }

  // The text before the first dot, and the rest, can be read back.
  lemma DotInjective(a: string, s: string, b: string, t: string)
    requires '.' !in a && '.' !in b && a + ("." + s) == b + ("." + t)
    ensures a == b && s == t
  {
    var text := a + ("." + s);
    DotNotBefore(a, s, b, t);
    DotNotBefore(b, t, a, s);
    assert a == text[..|a|] && b == text[..|b|];
    assert s == text[|a| + 1..] && t == text[|b| + 1..];
  }

  // ---- Names and staging paths -----------------------------------------------------------------------

  lemma NameIsDotted(a: string, v: string)
    requires ValidIdentifier(a) && ValidIdentifier(v)
    ensures ValidDottedIdentifier(JobName(a, v)) && JobName(a, v) == a + "." + v
  {
    IdentifierPlain(a);
    IdentifierPlain(v);
    DotPartsFirst(a, v);
    DotPartsOne(v);
    assert a + ("." + v) == a + "." + v;
  }

  lemma NameInjective(a: string, v: string, b: string, w: string)
    requires ValidIdentifier(a) && ValidIdentifier(v) && ValidIdentifier(b) && ValidIdentifier(w)
    requires JobName(a, v) == JobName(b, w)
    ensures a == b && v == w
  {
    IdentifierPlain(a);
    IdentifierPlain(b);
    DotInjective(a, v, b, w);
  }

  function StageFile(a: string, v: string, format: ArtifactFormat): string {
    a + ("." + (v + ("." + Extension(format))))
  }

  lemma StageInjective(a: string, v: string, f: ArtifactFormat, b: string, w: string, g: ArtifactFormat)
    requires ValidIdentifier(a) && ValidIdentifier(v) && ValidIdentifier(b) && ValidIdentifier(w)
    requires StagePath(a, v, f) == StagePath(b, w, g)
    ensures a == b && v == w
  {
    IdentifierPlain(a);
    IdentifierPlain(b);
    IdentifierPlain(v);
    IdentifierPlain(w);
    var s, t := StageFile(a, v, f), StageFile(b, w, g);
    assert s == StagePath(a, v, f)[|STAGE|..] && t == StagePath(b, w, g)[|STAGE|..];
    DotInjective(a, v + ("." + Extension(f)), b, w + ("." + Extension(g)));
    DotInjective(v, Extension(f), w, Extension(g));
  }

  lemma StageFromName(a: string, v: string, format: ArtifactFormat)
    ensures StagePath(a, v, format) == STAGE + JobName(a, v) + "." + Extension(format)
  {
    var e := Extension(format);
    assert a + ("." + (v + ("." + e))) == (a + ("." + v)) + ("." + e);
    assert STAGE + ((a + ("." + v)) + ("." + e)) == STAGE + (a + ("." + v)) + "." + e;
  }

  predicate PlainText(s: string) {
    '/' !in s && '\\' !in s && ':' !in s && 0 as char !in s
  }

  lemma StageFilePlain(a: string, v: string, format: ArtifactFormat)
    requires ValidIdentifier(a) && ValidIdentifier(v)
    ensures var s := StageFile(a, v, format);
      PlainText(s) && 0 < |s| <= 263 && s[|s| - 1] != '.' && s[|s| - 1] != ' ' && s != ".."
      && DotParts(s)[0] == a && s != "" && s != "."
  {
    IdentifierPlain(a);
    IdentifierPlain(v);
    var e := Extension(format);
    var s := StageFile(a, v, format);
    DotPartsFirst(a, v + ("." + e));
    assert s[|s| - 1] == e[|e| - 1] && e[|e| - 1] in e;
  }

  lemma IdentifierReserved(a: string)
    requires ValidIdentifier(a)
    ensures WindowsReserved(a) <==> DeviceStem(Upper(a))
  {
    IdentifierPlain(a);
    DotPartsOne(a);
    assert a[|a| - 1] in a;
  }

  lemma ThreeComponents(first: string, second: string, third: string)
    requires '/' !in first && '/' !in second && '/' !in third
    ensures Split(first + "/" + (second + "/" + third)) == [first, second, third]
  {
    SplitOne(third);
    SplitFirst(second, third);
    SplitFirst(first, second + "/" + third);
  }

  lemma StageSplits(file: string)
    requires '/' !in file
    ensures Split(STAGE + file) == [".pliego-assets", "stage", file]
  {
    hide Split;
    ThreeComponents(".pliego-assets", "stage", file);
    assert STAGE + file == ".pliego-assets" + "/" + ("stage" + "/" + file);
  }

  lemma DotFileOk(rest: string)
    requires rest != "" && rest[|rest| - 1] !in {'.', ' '} && ':' !in rest
    ensures SegmentOk("." + rest)
  {
    var segment := "." + rest;
    assert segment[1..] == rest;
    assert DotParts(segment)[0] == "";
    assert segment[|segment| - 1] == rest[|rest| - 1] && segment[1] == rest[0];
  }

  lemma PliegoDirectory()
    ensures SegmentOk(".pliego-assets")
  {
    DotFileOk("pliego-assets");
    assert "." + "pliego-assets" == ".pliego-assets";
  }

  lemma StageDirectory()
    ensures SegmentOk("stage")
  {
    DotPartsOne("stage");
    assert |Upper("stage")| == 5;
  }

  lemma StageTextOk(file: string)
    requires PlainText(file) && 0 < |file| <= 263
    ensures TextOk(STAGE + file)
  {
    assert STAGE == ".pliego-assets/stage/";
    assert '\\' !in STAGE && 0 as char !in STAGE;
  }

  lemma StageFileOkIff(a: string, v: string, format: ArtifactFormat)
    requires ValidIdentifier(a) && ValidIdentifier(v)
    ensures SegmentOk(StageFile(a, v, format)) <==> !WindowsReserved(a)
  {
    StageFilePlain(a, v, format);
    IdentifierReserved(a);
  }

  // The staging path is a safe relative path exactly when the asset id is no device name.
  lemma StagePathOkIff(a: string, v: string, format: ArtifactFormat)
    requires ValidIdentifier(a) && ValidIdentifier(v)
    ensures RelativePathOk(StagePath(a, v, format)) <==> !WindowsReserved(a)
  {
    var file := StageFile(a, v, format);
    StageFilePlain(a, v, format);
    StageFileOkIff(a, v, format);
    StageSplits(file);
    PliegoDirectory();
    StageDirectory();
    StageTextOk(file);
    PathOfThree(STAGE + file, ".pliego-assets", "stage", file);
  }

  lemma PathOfThree(value: string, first: string, second: string, third: string)
    requires Split(value) == [first, second, third] && TextOk(value)
    requires first != "." && SegmentOk(first) && SegmentOk(second)
    ensures RelativePathOk(value) <==> SegmentOk(third)
  {
    assert Split(value)[2] == third;
  }

  // ---- One job ---------------------------------------------------------------------------------------

  // How push_job names a job.
  predicate Named(job: AssetJob) {
    && ValidIdentifier(job.sourceId) && ValidIdentifier(job.variantId)
    && job.id == JobName(job.sourceId, job.variantId)
    && job.stagingPath == StagePath(job.sourceId, job.variantId, job.format)
  }

  // What planning settles whatever the asset is called.
  predicate Sound(job: AssetJob, pins: set<Toolchain>) {
    && Named(job)
    && job.requiredToolchains <= pins
    && PolicyOk(job.policy, OperationFamily(job.operation))
    && ContractOk(job)
  }

  lemma SoundJobOkIff(job: AssetJob, sources: set<string>, pins: set<Toolchain>)
    requires Sound(job, pins) && job.sourceId in sources
    ensures JobOk(job, sources, pins) <==> !WindowsReserved(job.sourceId)
  {
    NameIsDotted(job.sourceId, job.variantId);
    StageFromName(job.sourceId, job.variantId, job.format);
    StagePathOkIff(job.sourceId, job.variantId, job.format);
  }

  // An accepted job carries the names the planner would give it.
  lemma AcceptedNames(job: AssetJob, sources: set<string>, pins: set<Toolchain>)
    requires JobOk(job, sources, pins)
    ensures Named(job) && !WindowsReserved(job.sourceId)
  {
    assert job.sourceId + "." + job.variantId == JobName(job.sourceId, job.variantId);
    StageFromName(job.sourceId, job.variantId, job.format);
    StagePathOkIff(job.sourceId, job.variantId, job.format);
  }

  // ---- One asset -------------------------------------------------------------------------------------

  function VariantIds(t: TransformRecipe): (ids: seq<string>)
  {
    match t
    case Images(outputs) => seq(|outputs|, i requires 0 <= i < |outputs| => outputs[i].id)
    case Videos(outputs) => seq(|outputs|, i requires 0 <= i < |outputs| => outputs[i].id)
    case Fonts(outputs) => seq(|outputs|, i requires 0 <= i < |outputs| => outputs[i].id)
    case Scenes(outputs) => seq(|outputs|, i requires 0 <= i < |outputs| => outputs[i].id)
  }

  // The planned jobs of one asset, variant by variant.
  ghost predicate PlannedFor(a: AssetRecipe, jobs: seq<AssetJob>, pins: set<Toolchain>) {
    && |jobs| == |VariantIds(a.transform)|
    && forall i :: 0 <= i < |jobs| ==>
         Sound(jobs[i], pins) && jobs[i].sourceId == a.id && jobs[i].variantId == VariantIds(a.transform)[i]
  }

  lemma ImageSound(a: AssetRecipe, o: ImageOutput, job: AssetJob, pins: set<Toolchain>)
    requires ValidIdentifier(a.id) && ImageOk(o) && Ffmpeg in pins && PlanImage(a.id)(o) == Some(job)
    ensures Sound(job, pins) && job.sourceId == a.id && job.variantId == o.id
  {
  }

  lemma VideoSound(a: AssetRecipe, o: VideoOutput, job: AssetJob, pins: set<Toolchain>)
    requires ValidIdentifier(a.id) && VideoOk(o) && Ffmpeg in pins && PlanVideo(a.id)(o) == Some(job)
    ensures Sound(job, pins) && job.sourceId == a.id && job.variantId == o.id
  {
  }

  lemma FontSound(a: AssetRecipe, o: FontOutput, job: AssetJob, pins: set<Toolchain>)
    requires ValidIdentifier(a.id) && FontOk(o) && Fonttools in pins && PlanFont(a.id)(o) == Some(job)
    ensures Sound(job, pins) && job.sourceId == a.id && job.variantId == o.id
  {
  }

  lemma SceneSound(a: AssetRecipe, o: SceneOutput, job: AssetJob, pins: set<Toolchain>)
    requires ValidIdentifier(a.id) && SceneOk(o, pins) && {GltfTransform, Ktx2Encoder} <= pins
    requires PlanScene(a.id)(o) == Some(job)
    ensures Sound(job, pins) && job.sourceId == a.id && job.variantId == o.id
  {
    var tools := {GltfTransform, Ktx2Encoder};
    assert tools + {} == tools;
  }

  lemma AssetPlanned(a: AssetRecipe, pins: set<Toolchain>)
    requires AssetOk(a, pins) && JobsOf(a).Some?
    ensures PlannedFor(a, JobsOf(a).value, pins)
  {
    var jobs := JobsOf(a).value;
    match a.transform
    case Images(outputs) =>
      forall i | 0 <= i < |jobs| ensures Sound(jobs[i], pins) && jobs[i].sourceId == a.id && jobs[i].variantId == outputs[i].id {
        ImageSound(a, outputs[i], jobs[i], pins);
      }
    case Videos(outputs) =>
      forall i | 0 <= i < |jobs| ensures Sound(jobs[i], pins) && jobs[i].sourceId == a.id && jobs[i].variantId == outputs[i].id {
        VideoSound(a, outputs[i], jobs[i], pins);
      }
    case Fonts(outputs) =>
      forall i | 0 <= i < |jobs| ensures Sound(jobs[i], pins) && jobs[i].sourceId == a.id && jobs[i].variantId == outputs[i].id {
        FontSound(a, outputs[i], jobs[i], pins);
      }
    case Scenes(outputs) =>
      forall i | 0 <= i < |jobs| ensures Sound(jobs[i], pins) && jobs[i].sourceId == a.id && jobs[i].variantId == outputs[i].id {
        SceneSound(a, outputs[i], jobs[i], pins);
      }
  }

  // The output a job comes from, read back from it.
  function OutputOf(job: AssetJob): TransformRecipe {
    match job.operation
    case ImageJob(width, height, image, quality) =>
      Images([ImageOutput(job.variantId, width, height, image, quality, job.policy)])
    case VideoJob(width, height, video, bitrate, fps, audio) =>
      Videos([VideoOutput(job.variantId, width, height, video, bitrate, fps, audio, job.policy)])
    case FontJob(glyphs, unicodeRange) => Fonts([FontOutput(job.variantId, glyphs, unicodeRange, job.policy)])
    case SceneJob(triangles, drawCalls, dimension, requiresBlender) =>
      Scenes([SceneOutput(job.variantId, triangles, drawCalls, dimension, requiresBlender, job.policy)])
  }

  lemma PlainInputOk()
    ensures RelativePathOk("a")
  {
    SplitOne("a");
    DotPartsOne("a");
    assert |Upper("a")| == 1;
  }

  lemma PlanOfOne<T>(output: T, plan: T -> Option<AssetJob>)
    ensures PlanTo([output], plan, 1) == if plan(output).None? then None else Some([plan(output).value])
  {
    var planned := plan(output);
    assert PlanTo([output], plan, 0) == Some([]) && [output][0] == output;
    assert planned.Some? ==> [] + [planned.value] == [planned.value];
  }

  lemma SoundIsPlanned(job: AssetJob, pins: set<Toolchain>)
    requires Sound(job, pins)
    ensures TransformOk(OutputOf(job), pins) && JobsOf(AssetRecipe(job.sourceId, "a", OutputOf(job))) == Some([job])
  {
    hide PolicyOk, FontTextOk, ValidIdentifier, StagePath, JobName, RgbaBytes;
    var a := AssetRecipe(job.sourceId, "a", OutputOf(job));
    match a.transform
    case Images(outputs) => PlanOfOne(outputs[0], PlanImage(a.id));
    case Videos(outputs) => PlanOfOne(outputs[0], PlanVideo(a.id));
    case Fonts(outputs) => PlanOfOne(outputs[0], PlanFont(a.id));
    case Scenes(outputs) =>
      PlanOfOne(outputs[0], PlanScene(a.id));
      assert {GltfTransform, Ktx2Encoder} + {} == {GltfTransform, Ktx2Encoder};
  }

  // The validator, which knows nothing of recipes, accepts exactly the jobs that planning a valid asset can
  // yield, of the plan's sources, save those of an asset that is named after a device.
  lemma JobOkIffPlannable(job: AssetJob, sources: set<string>, pins: set<Toolchain>)
    ensures JobOk(job, sources, pins) <==>
      && job.sourceId in sources && !WindowsReserved(job.sourceId)
      && exists a :: AssetOk(a, pins) && JobsOf(a) == Some([job])
  {
    if JobOk(job, sources, pins) {
      AcceptedNames(job, sources, pins);
      SoundIsPlanned(job, pins);
      PlainInputOk();
      assert AssetOk(AssetRecipe(job.sourceId, "a", OutputOf(job)), pins);
    }
    if a :| AssetOk(a, pins) && JobsOf(a) == Some([job]) {
      AssetPlanned(a, pins);
      if job.sourceId in sources {
        SoundJobOkIff(job, sources, pins);
      }
    }
  }

  predicate DistinctStrings(s: seq<string>) {
    forall i, j :: 0 <= i < |s| && 0 <= j < |s| && s[i] == s[j] ==> i == j
  }

  lemma VariantsDistinct(a: AssetRecipe, pins: set<Toolchain>)
    requires AssetOk(a, pins)
    ensures |VariantIds(a.transform)| >= 1 && DistinctStrings(VariantIds(a.transform))
  {
    match a.transform
    case Images(outputs) =>
      forall i, j | 0 <= i < |outputs| && 0 <= j < |outputs| && outputs[i].id == outputs[j].id ensures i == j {
        assert ImageId(outputs[i]) == ImageId(outputs[j]);
      }
    case Videos(outputs) =>
      forall i, j | 0 <= i < |outputs| && 0 <= j < |outputs| && outputs[i].id == outputs[j].id ensures i == j {
        assert VideoId(outputs[i]) == VideoId(outputs[j]);
      }
    case Fonts(outputs) =>
      forall i, j | 0 <= i < |outputs| && 0 <= j < |outputs| && outputs[i].id == outputs[j].id ensures i == j {
        assert FontId(outputs[i]) == FontId(outputs[j]);
      }
    case Scenes(outputs) =>
      forall i, j | 0 <= i < |outputs| && 0 <= j < |outputs| && outputs[i].id == outputs[j].id ensures i == j {
        assert SceneId(outputs[i]) == SceneId(outputs[j]);
      }
  }

  // ---- All assets ------------------------------------------------------------------------------------

  function SourceIds(assets: seq<AssetRecipe>, n: nat): set<string>
    requires n <= |assets|
  {
    set i | 0 <= i < n :: assets[i].id
  }

  // The jobs of the first n assets: sound, from those assets, and no two with the same source and variant.
  ghost predicate Planned(assets: seq<AssetRecipe>, jobs: seq<AssetJob>, n: nat, pins: set<Toolchain>)
    requires n <= |assets|
  {
    && (forall k :: 0 <= k < |jobs| ==> Sound(jobs[k], pins) && jobs[k].sourceId in SourceIds(assets, n))
    && (forall k, l :: 0 <= k < |jobs| && 0 <= l < |jobs| && SameVariant(jobs[k], jobs[l]) ==> k == l)
    && (forall i :: 0 <= i < n ==> exists k :: 0 <= k < |jobs| && jobs[k].sourceId == assets[i].id)
  }

  predicate SameVariant(a: AssetJob, b: AssetJob) {
    a.sourceId == b.sourceId && a.variantId == b.variantId
  }

  // What is known of the jobs of the next asset.
  predicate Fresh(assets: seq<AssetRecipe>, n: nat)
    requires n < |assets|
  {
    && |VariantIds(assets[n].transform)| >= 1 && DistinctStrings(VariantIds(assets[n].transform))
    && assets[n].id !in SourceIds(assets, n)
  }

  lemma NextPlanned(assets: seq<AssetRecipe>, n: nat, pins: set<Toolchain>)
    requires AssetsOk(assets, pins) && n < |assets| && JobsOf(assets[n]).Some?
    ensures PlannedFor(assets[n], JobsOf(assets[n]).value, pins) && Fresh(assets, n)
  {
    assert AssetOk(assets[n], pins);
    AssetPlanned(assets[n], pins);
    VariantsDistinct(assets[n], pins);
    NewSource(assets, n, pins);
  }

  // The jobs of each asset that has any.
  function ListsOf(assets: seq<AssetRecipe>): (lists: seq<seq<AssetJob>>)
    ensures |lists| == |assets|
    ensures forall i :: 0 <= i < |assets| && JobsOf(assets[i]).Some? ==> lists[i] == JobsOf(assets[i]).value
  {
    seq(|assets|, i requires 0 <= i < |assets| => if JobsOf(assets[i]).Some? then JobsOf(assets[i]).value else [])
  }

  function Flat(lists: seq<seq<AssetJob>>, n: nat): seq<AssetJob>
    requires n <= |lists|
  {
    if n == 0 then [] else Flat(lists, n - 1) + lists[n - 1]
  }

  lemma {:induction false} AllJobsFlat(assets: seq<AssetRecipe>, lists: seq<seq<AssetJob>>, n: nat)
    requires n <= |assets| && lists == ListsOf(assets) && AllJobs(assets, n).Some?
    ensures AllJobs(assets, n).value == Flat(lists, n)
  {
    hide JobsOf;
    if n > 0 {
      JobsStep(assets, n - 1);
      AllJobsFlat(assets, lists, n - 1);
    }
  }

  // What is known of the list of jobs of asset i.
  ghost predicate Ready(assets: seq<AssetRecipe>, lists: seq<seq<AssetJob>>, i: nat, pins: set<Toolchain>)
    requires i < |assets| == |lists|
  {
    PlannedFor(assets[i], lists[i], pins) && Fresh(assets, i)
  }

  lemma AllReady(assets: seq<AssetRecipe>, pins: set<Toolchain>)
    requires AssetsOk(assets, pins) && AllJobs(assets, |assets|).Some?
    ensures forall i :: 0 <= i < |assets| ==> Ready(assets, ListsOf(assets), i, pins)
  {
    forall i | 0 <= i < |assets| ensures Ready(assets, ListsOf(assets), i, pins) {
      JobsGrow(assets, i + 1, |assets|);
      NextPlanned(assets, i, pins);
    }
  }

  lemma NothingPlanned(assets: seq<AssetRecipe>, pins: set<Toolchain>)
    ensures Planned(assets, [], 0, pins)
  {
  }

  lemma {:induction false} AllPlanned(assets: seq<AssetRecipe>, lists: seq<seq<AssetJob>>, n: nat, pins: set<Toolchain>)
    requires n <= |assets| == |lists| && forall i :: 0 <= i < |assets| ==> Ready(assets, lists, i, pins)
    ensures Planned(assets, Flat(lists, n), n, pins)
  {
    hide Planned, PlannedFor, Fresh;
    if n == 0 {
      NothingPlanned(assets, pins);
    } else {
      AllPlanned(assets, lists, n - 1, pins);
      assert Ready(assets, lists, n - 1, pins);
      PlannedNext(assets, Flat(lists, n - 1), lists[n - 1], n - 1, pins);
    }
  }

  lemma NewSource(assets: seq<AssetRecipe>, n: nat, pins: set<Toolchain>)
    requires AssetsOk(assets, pins) && n < |assets|
    ensures assets[n].id !in SourceIds(assets, n)
  {
    forall i | 0 <= i < n ensures assets[i].id != assets[n].id {
      assert AssetId(assets[i]) == AssetId(assets[n]) ==> i == n;
    }
  }

  lemma PlannedNext(assets: seq<AssetRecipe>, before: seq<AssetJob>, more: seq<AssetJob>, n: nat, pins: set<Toolchain>)
    requires n < |assets| && Planned(assets, before, n, pins) && PlannedFor(assets[n], more, pins) && Fresh(assets, n)
    ensures Planned(assets, before + more, n + 1, pins)
  {
    var jobs := before + more;
    assert SourceIds(assets, n + 1) == SourceIds(assets, n) + {assets[n].id};
    forall k | 0 <= k < |jobs| ensures Sound(jobs[k], pins) && jobs[k].sourceId in SourceIds(assets, n + 1) {
      assert jobs[k] == if k < |before| then before[k] else more[k - |before|];
    }
    forall k, l | 0 <= k < |jobs| && 0 <= l < |jobs| && SameVariant(jobs[k], jobs[l]) ensures k == l {
      SameVariantSame(assets, before, more, n, pins, k, l);
    }
    forall i | 0 <= i < n + 1 ensures exists k :: 0 <= k < |jobs| && jobs[k].sourceId == assets[i].id {
      SourceHasJob(assets, before, more, n, pins, i);
    }
  }

  lemma SourceHasJob(
    assets: seq<AssetRecipe>, before: seq<AssetJob>, more: seq<AssetJob>, n: nat, pins: set<Toolchain>, i: nat)
    requires i <= n < |assets| && Planned(assets, before, n, pins) && PlannedFor(assets[n], more, pins) && Fresh(assets, n)
    ensures exists k :: 0 <= k < |before + more| && (before + more)[k].sourceId == assets[i].id
  {
    var jobs := before + more;
    if i < n {
      var k :| 0 <= k < |before| && before[k].sourceId == assets[i].id;
      assert jobs[k].sourceId == assets[i].id;
    } else {
      assert jobs[|before|] == more[0];
    }
  }

  lemma SameVariantSame(
    assets: seq<AssetRecipe>, before: seq<AssetJob>, more: seq<AssetJob>, n: nat, pins: set<Toolchain>, k: nat, l: nat)
    requires n < |assets| && Planned(assets, before, n, pins) && PlannedFor(assets[n], more, pins) && Fresh(assets, n)
    requires k < |before + more| && l < |before + more| && SameVariant((before + more)[k], (before + more)[l])
    ensures k == l
  {
    var jobs := before + more;
    forall i, j | 0 <= i < |before| && 0 <= j < |more| ensures before[i].sourceId != more[j].sourceId {
      assert more[j].sourceId == assets[n].id;
    }
    assert forall i :: 0 <= i < |before| ==> jobs[i] == before[i];
    assert forall i :: |before| <= i < |jobs| ==> jobs[i] == more[i - |before|];
    if k < |before| && l < |before| {
      assert before[k] == jobs[k] && before[l] == jobs[l];
    } else if |before| <= k && |before| <= l {
      var i, j := k - |before|, l - |before|;
      assert VariantIds(assets[n].transform)[i] == VariantIds(assets[n].transform)[j];
    }
  }

  // Job ids and staging paths of all planned jobs are pairwise distinct.
  lemma NamesDistinct(assets: seq<AssetRecipe>, jobs: seq<AssetJob>, pins: set<Toolchain>)
    requires Planned(assets, jobs, |assets|, pins)
    ensures DistinctBy(jobs, JobId, |jobs|) && DistinctBy(jobs, JobStage, |jobs|)
  {
    forall i, j | 0 <= i < |jobs| && 0 <= j < |jobs| && JobId(jobs[i]) == JobId(jobs[j]) ensures i == j {
      NameInjective(jobs[i].sourceId, jobs[i].variantId, jobs[j].sourceId, jobs[j].variantId);
      assert SameVariant(jobs[i], jobs[j]);
    }
    forall i, j | 0 <= i < |jobs| && 0 <= j < |jobs| && JobStage(jobs[i]) == JobStage(jobs[j]) ensures i == j {
      StageInjective(
        jobs[i].sourceId, jobs[i].variantId, jobs[i].format, jobs[j].sourceId, jobs[j].variantId, jobs[j].format);
      assert SameVariant(jobs[i], jobs[j]);
    }
  }

  // Sorting changes neither which jobs there are nor that their names differ.
  lemma DistinctPermuted(a: seq<AssetJob>, b: seq<AssetJob>, key: AssetJob -> string)
    requires Permuted(a, b) && DistinctBy(a, key, |a|)
    ensures DistinctBy(b, key, |b|)
  {
    forall i, j | 0 <= i < |b| && 0 <= j < |b| && key(b[i]) == key(b[j]) ensures i == j {
      if i < j {
        var k, l := FindTwoPermuted(b, a, i, j);
      } else if j < i {
        var k, l := FindTwoPermuted(b, a, j, i);
      }
    }
  }

  predicate AllJobsOk(jobs: seq<AssetJob>, sources: set<string>, pins: set<Toolchain>) {
    forall i :: 0 <= i < |jobs| ==> JobOk(jobs[i], sources, pins)
  }

  lemma AllJobsOkIff(assets: seq<AssetRecipe>, jobs: seq<AssetJob>, pins: set<Toolchain>)
    requires Planned(assets, jobs, |assets|, pins)
    ensures AllJobsOk(jobs, SourceIds(assets, |assets|), pins)
      <==> forall i :: 0 <= i < |assets| ==> !WindowsReserved(assets[i].id)
  {
    var sources := SourceIds(assets, |assets|);
    forall k | 0 <= k < |jobs| ensures JobOk(jobs[k], sources, pins) <==> !WindowsReserved(jobs[k].sourceId) {
      SoundJobOkIff(jobs[k], sources, pins);
    }
    if AllJobsOk(jobs, sources, pins) {
      forall i | 0 <= i < |assets| ensures !WindowsReserved(assets[i].id) {
        var k :| 0 <= k < |jobs| && jobs[k].sourceId == assets[i].id;
        assert JobOk(jobs[k], sources, pins);
      }
    }
  }

  // The planner agrees with the validator, but for one thing: of every recipe whose assets validate and whose
  // estimates fit, the sorted jobs pass the validator's job checks exactly when they are not too many and no
  // asset is named after a device.
  lemma PlannedJobsValidIff(assets: seq<AssetRecipe>, pins: set<Toolchain>)
    requires AssetsOk(assets, pins) && AllJobs(assets, |assets|).Some?
    ensures var jobs := AllJobs(assets, |assets|).value;
      && DistinctBy(jobs, JobId, |jobs|) && DistinctBy(jobs, JobStage, |jobs|)
      && (JobsOk(SortBy(jobs, JobId), SourceIds(assets, |assets|), pins) <==>
            |jobs| <= MAX_JOBS && forall i :: 0 <= i < |assets| ==> !WindowsReserved(assets[i].id))
  {
    var jobs := AllJobs(assets, |assets|).value;
    var sorted := SortBy(jobs, JobId);
    AllReady(assets, pins);
    AllPlanned(assets, ListsOf(assets), |assets|, pins);
    AllJobsFlat(assets, ListsOf(assets), |assets|);
    NamesDistinct(assets, jobs, pins);
    SortPermutes(jobs, JobId);
    DistinctPermuted(jobs, sorted, JobId);
    AllJobsOkIff(assets, jobs, pins);
    SameMembersOk(jobs, sorted, SourceIds(assets, |assets|), pins);
  }

  lemma SameMembersOk(a: seq<AssetJob>, b: seq<AssetJob>, sources: set<string>, pins: set<Toolchain>)
    requires Permuted(b, a)
    ensures AllJobsOk(a, sources, pins) <==> AllJobsOk(b, sources, pins)
  {
    PermutedMembers(a, b);
    if AllJobsOk(a, sources, pins) {
      forall i | 0 <= i < |b| ensures JobOk(b[i], sources, pins) {
        assert b[i] in a;
      }
    }
    if AllJobsOk(b, sources, pins) {
      forall i | 0 <= i < |a| ensures JobOk(a[i], sources, pins) {
        assert a[i] in b;
      }
    }
  }

  // A recipe of one font with one variant, named at will.
  function FontPolicy(): B.LoadPolicy {
    B.LoadPolicy({B.Universal}, B.Deferred, false, B.Auto, B.Static)
  }

  function OneFont(assetId: string, variantId: string): seq<AssetRecipe> {
    [AssetRecipe(assetId, "in", Fonts([FontOutput(variantId, "a", None, FontPolicy())]))]
  }

  function OneFontJob(assetId: string, variantId: string): AssetJob {
    MakeJob(assetId, variantId, Woff2File, {Fonttools}, FontPolicy(), FontJob("a", None), 0, 0, 0)
  }

  lemma InputOk()
    ensures RelativePathOk("in")
  {
    SplitOne("in");
    DotPartsOne("in");
    assert |Upper("in")| == 2;
  }

  lemma OneSorted(job: AssetJob)
    ensures SortBy([job], JobId) == [job]
  {
    assert [job][1..] == [];
  }

  lemma OneFontOk(assetId: string, variantId: string)
    requires ValidIdentifier(assetId) && ValidIdentifier(variantId)
    ensures AssetsOk(OneFont(assetId, variantId), {Fonttools})
    ensures AllJobs(OneFont(assetId, variantId), 1) == Some([OneFontJob(assetId, variantId)])
    ensures SortBy([OneFontJob(assetId, variantId)], JobId) == [OneFontJob(assetId, variantId)]
  {
    var assets := OneFont(assetId, variantId);
    InputOk();
    assert CharCount("a") == 1 + CharCount("a"[1..]);
    assert AssetOk(assets[0], {Fonttools});
    var outputs := assets[0].transform.fonts;
    assert PlanTo(outputs, PlanFont(assetId), 0) == Some([]);
    assert PlanTo(outputs, PlanFont(assetId), 1) == Some([] + [OneFontJob(assetId, variantId)]);
    assert assets[0].id == assetId && assets[0].transform == Fonts(outputs) && |outputs| == 1;
    assert JobsOf(assets[0]) == PlanTo(outputs, PlanFont(assetId), 1);
    var jobs := JobsOf(assets[0]).value;
    assert AllJobs(assets, 0) == Some([]);
    assert AllJobs(assets, 1) == Some(AllJobs(assets, 0).value + jobs);
    assert [] + jobs == [OneFontJob(assetId, variantId)];
    OneSorted(OneFontJob(assetId, variantId));
  }

  // "con" is a valid identifier and a device name.
  lemma DeviceNameIsAnIdentifier()
    ensures ValidIdentifier("con") && WindowsReserved("con")
    ensures ValidIdentifier("hero") && !WindowsReserved("hero")
  {
    DotPartsOne("con");
    assert Upper("con") == "CON";
    assert ValidIdentifier("hero");
    IdentifierReserved("hero");
    assert Upper("hero") == "HERO";
  }

  // So a recipe that validates, and whose estimates fit, may have no valid plan.
  lemma ValidRecipeWithoutPlan()
    ensures var assets, pins := OneFont("con", "a"), {Fonttools};
      && AssetsOk(assets, pins) && AllJobs(assets, |assets|).Some?
      && !JobsOk(SortBy(AllJobs(assets, |assets|).value, JobId), SourceIds(assets, |assets|), pins)
  {
    DeviceNameIsAnIdentifier();
    assert ValidIdentifier("a");
    OneFontOk("con", "a");
    PlannedJobsValidIff(OneFont("con", "a"), {Fonttools});
    assert WindowsReserved(OneFont("con", "a")[0].id);
  }

  // And a recipe that validates and has a valid plan may name a variant after a device.
  lemma ValidPlanWithDeviceVariant()
    ensures var assets, pins := OneFont("hero", "con"), {Fonttools};
      && AssetsOk(assets, pins)
      && AllJobs(assets, |assets|) == Some([OneFontJob("hero", "con")])
      && JobsOk([OneFontJob("hero", "con")], SourceIds(assets, |assets|), pins)
      && WindowsReserved(OneFontJob("hero", "con").variantId)
  {
    DeviceNameIsAnIdentifier();
    OneFontOk("hero", "con");
    PlannedJobsValidIff(OneFont("hero", "con"), {Fonttools});
  }

  // ---- The whole of planning -------------------------------------------------------------------------

  function OutputCount(assets: seq<AssetRecipe>, n: nat): nat
    requires n <= |assets|
  {
    if n == 0 then 0 else OutputCount(assets, n - 1) + |VariantIds(assets[n - 1].transform)|
  }

  lemma JobCount(a: AssetRecipe)
    requires JobsOf(a).Some?
    ensures |JobsOf(a).value| == |VariantIds(a.transform)|
  {
  }

  // What the next asset adds.
  lemma NextJobs(assets: seq<AssetRecipe>, n: nat)
    requires n < |assets|
    ensures AllJobs(assets, n + 1).Some? <==> AllJobs(assets, n).Some? && !SomeEstimateOverflows(assets[n].transform)
    ensures AllJobs(assets, n + 1).Some? ==>
      |AllJobs(assets, n + 1).value| == |AllJobs(assets, n).value| + |VariantIds(assets[n].transform)|
  {
    AppendFailsIff(assets[n]);
    if JobsOf(assets[n]).Some? {
      JobCount(assets[n]);
    }
  }

  // No estimate of the first n assets overflows.
  predicate NoneOverflowsTo(assets: seq<AssetRecipe>, n: nat)
    requires n <= |assets|
  {
    n == 0 || (NoneOverflowsTo(assets, n - 1) && !SomeEstimateOverflows(assets[n - 1].transform))
  }

  lemma {:induction false} AllJobsIff(assets: seq<AssetRecipe>, n: nat)
    requires n <= |assets|
    ensures AllJobs(assets, n).Some? <==> NoneOverflowsTo(assets, n)
    ensures AllJobs(assets, n).Some? ==> |AllJobs(assets, n).value| == OutputCount(assets, n)
  {
    hide JobsOf, SomeEstimateOverflows, VariantIds;
    if n > 0 {
      AllJobsIff(assets, n - 1);
      NextJobs(assets, n - 1);
    }
  }

  // Exactly the recipes that can be planned.
  predicate Plannable(assets: seq<AssetRecipe>, pins: set<Toolchain>) {
    && AssetsOk(assets, pins)
    && OutputCount(assets, |assets|) <= MAX_JOBS
    && NoneOverflowsTo(assets, |assets|)
    && forall i :: 0 <= i < |assets| ==> !WindowsReserved(assets[i].id)
  }

  // plan_adaptive_assets: validate the recipe, plan its jobs, validate the plan.
  method PlanAdaptiveAssets(assets: seq<AssetRecipe>, pins: set<Toolchain>) returns (jobs: Option<seq<AssetJob>>)
    ensures jobs.Some? <==> Plannable(assets, pins)
    ensures jobs.Some? ==>
      && AllJobs(assets, |assets|).Some? && jobs.value == SortBy(AllJobs(assets, |assets|).value, JobId)
      && JobsOk(jobs.value, SourceIds(assets, |assets|), pins)
  {
    var ok := ValidateAssets(assets, pins);
    if !ok {
      return None;
    }
    AllJobsIff(assets, |assets|);
    jobs := PlanJobs(assets);
    if jobs.None? {
      return;
    }
    PlannedJobsValidIff(assets, pins);
    ok := ValidateJobs(jobs.value, SourceIds(assets, |assets|), pins);
    if !ok {
      return None;
    }
  }
}
