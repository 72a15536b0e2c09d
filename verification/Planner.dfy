// The asset planner and the validator of its plans (pliego-assets, adaptive.rs).
module Planner {
  import opened Prelude
  import opened Text
  import opened Sorting
  import B = Budgets

  // ---- Recipes and jobs ------------------------------------------------------------------------------

  datatype Toolchain = Ffmpeg | Fonttools | Blender | GltfTransform | Ktx2Encoder
  datatype ImageFormat = Avif | Webp | Jpeg
  datatype VideoFormat = Mp4H264 | Mp4Av1 | WebmVp9
  datatype ArtifactFormat = AvifFile | WebpFile | JpegFile | Mp4File | WebmFile | Woff2File | GlbFile

  datatype ImageOutput = ImageOutput(
    id: string, width: u32, height: u32, format: ImageFormat, quality: nat, policy: B.LoadPolicy)
  datatype VideoOutput = VideoOutput(
    id: string, width: u32, height: u32, format: VideoFormat, bitrateKbps: u32, maxFps: nat, audio: bool,
    policy: B.LoadPolicy)
  datatype FontOutput = FontOutput(id: string, glyphs: string, unicodeRange: Option<string>, policy: B.LoadPolicy)
  datatype SceneOutput = SceneOutput(
    id: string, maxTriangles: u64, maxDrawCalls: u64, maxTextureDimension: u32, requiresBlender: bool,
    policy: B.LoadPolicy)

  datatype TransformRecipe =
    | Images(images: seq<ImageOutput>)
    | Videos(videos: seq<VideoOutput>)
    | Fonts(fonts: seq<FontOutput>)
    | Scenes(scenes: seq<SceneOutput>)

  datatype AssetRecipe = AssetRecipe(id: string, input: string, transform: TransformRecipe)

  datatype JobOperation =
    | ImageJob(width: u32, height: u32, image: ImageFormat, quality: nat)
    | VideoJob(width: u32, height: u32, video: VideoFormat, bitrateKbps: u32, maxFps: nat, audio: bool)
    | FontJob(glyphs: string, unicodeRange: Option<string>)
    | SceneJob(maxTriangles: u64, maxDrawCalls: u64, maxTextureDimension: u32, requiresBlender: bool)

  datatype AssetJob = AssetJob(
    id: string, sourceId: string, variantId: string, stagingPath: string, format: ArtifactFormat,
    selectionGroup: Option<string>, requiredToolchains: set<Toolchain>, policy: B.LoadPolicy, operation: JobOperation,
    estimatedDecodedBytes: u64, estimatedTriangles: u64, estimatedDrawCalls: u64)

  function Extension(f: ArtifactFormat): (e: string)
    ensures 3 <= |e| <= 5 && '.' !in e && '/' !in e && '\\' !in e && e[|e| - 1] != ' ' && ':' !in e && 0 as char !in e
  {
    match f
    case AvifFile => "avif"
    case WebpFile => "webp"
    case JpegFile => "jpg"
    case Mp4File => "mp4"
    case WebmFile => "webm"
    case Woff2File => "woff2"
    case GlbFile => "glb"
  }

  function ImageArtifact(f: ImageFormat): ArtifactFormat {
    match f
    case Avif => AvifFile
    case Webp => WebpFile
    case Jpeg => JpegFile
  }

  function VideoArtifact(f: VideoFormat): ArtifactFormat {
    if f == WebmVp9 then WebmFile else Mp4File
  }

  // ---- Identifiers and paths -------------------------------------------------------------------------

  predicate ValidIdentifier(s: string) {
    && 0 < |s| <= 128
    && (forall i :: 0 <= i < |s| ==>
          'a' <= s[i] <= 'z' || '0' <= s[i] <= '9' || (s[i] == '-' && i > 0 && i + 1 < |s|))
    && forall i :: 0 <= i < |s| - 1 ==> !(s[i] == '-' && s[i + 1] == '-')
  }

  // split('.').
  function DotParts(s: string): (parts: seq<string>)
    ensures |parts| >= 1
  {
    if s == "" then [""]
    else
      var rest := DotParts(s[1..]);
      if s[0] == '.' then [""] + rest else [[s[0]] + rest[0]] + rest[1..]
  }

  predicate ValidDottedIdentifier(s: string) {
    var parts := DotParts(s);
    |parts| == 2 && ValidIdentifier(parts[0]) && ValidIdentifier(parts[1])
  }

  function UpperChar(c: char): char {
    if 'a' <= c <= 'z' then c - 32 as char else c
  }

  function Upper(s: string): (r: string)
    ensures |r| == |s|
    ensures forall i :: 0 <= i < |s| ==> r[i] == UpperChar(s[i])
  {
    seq(|s|, i requires 0 <= i < |s| => UpperChar(s[i]))
  }

  predicate DeviceStem(stem: string) {
    || stem in {"CON", "PRN", "AUX", "NUL", "CLOCK$"}
    || (|stem| == 4 && stem[..3] in {"COM", "LPT"} && '1' <= stem[3] <= '9')
  }

  predicate WindowsReserved(segment: string) {
    || DeviceStem(Upper(DotParts(segment)[0]))
    || (segment != "" && segment[|segment| - 1] in {'.', ' '})
    || ':' in segment
  }

  // A component of a relative path; empty ones and inner "." are skipped.
  predicate SegmentOk(segment: string) {
    segment != ".." && (segment in {"", "."} || !WindowsReserved(segment))
  }

  // The checks on the text as a whole.
  predicate TextOk(value: string) {
    0 < |value| <= 500 && '\\' !in value && 0 as char !in value && value[0] != '/'
  }

  // validate_relative_path.
  predicate RelativePathOk(value: string) {
    var parts := Split(value);
    TextOk(value) && parts[0] != "." && forall i :: 0 <= i < |parts| ==> SegmentOk(parts[i])
  }

  // ---- What a recipe must satisfy --------------------------------------------------------------------

  datatype Family = ImageFamily | VideoFamily | FontFamily | SceneFamily

  predicate PolicyOk(p: B.LoadPolicy, family: Family) {
    && p.tiers != {}
    && (p.preload ==> p.delivery == B.Initial)
    && (p.fetchPriority == B.High ==> p.delivery == B.Initial)
    && (if family in {VideoFamily, SceneFamily}
        then B.Universal !in p.tiers && p.motion == B.SuppressWhenReduced
        else p.motion == B.Static)
  }

  // chars().count() on the encoded bytes: all but continuation bytes.
  function CharCount(s: string): nat {
    if s == "" then 0 else (if 0x80 as char <= s[0] <= 0xBF as char then 0 else 1) + CharCount(s[1..])
  }

  predicate FontTextOk(glyphs: string, unicodeRange: Option<string>) {
    && glyphs != "" && CharCount(glyphs) <= 8192
    && (unicodeRange.Some? ==> |unicodeRange.value| <= 512 && "U+" <= unicodeRange.value)
  }

  predicate ImageOk(o: ImageOutput) {
    ValidIdentifier(o.id) && o.width != 0 && o.height != 0 && 1 <= o.quality <= 100 && PolicyOk(o.policy, ImageFamily)
  }

  predicate VideoOk(o: VideoOutput) {
    && ValidIdentifier(o.id) && o.width != 0 && o.height != 0 && o.bitrateKbps != 0 && 0 < o.maxFps <= 240
    && PolicyOk(o.policy, VideoFamily)
  }

  predicate FontOk(o: FontOutput) {
    ValidIdentifier(o.id) && FontTextOk(o.glyphs, o.unicodeRange) && PolicyOk(o.policy, FontFamily)
  }

  predicate SceneOk(o: SceneOutput, pins: set<Toolchain>) {
    && ValidIdentifier(o.id) && (o.requiresBlender ==> Blender in pins)
    && o.maxTriangles != 0 && o.maxDrawCalls != 0 && 0 < o.maxTextureDimension <= 16384
    && PolicyOk(o.policy, SceneFamily)
  }

  predicate DistinctBy<T>(items: seq<T>, key: T -> string, n: nat)
    requires n <= |items|
  {
    forall i, j :: 0 <= i < n && 0 <= j < n && key(items[i]) == key(items[j]) ==> i == j
  }

  function ImageId(o: ImageOutput): string { o.id }
  function VideoId(o: VideoOutput): string { o.id }
  function FontId(o: FontOutput): string { o.id }
  function SceneId(o: SceneOutput): string { o.id }
  function AssetId(a: AssetRecipe): string { a.id }
  function JobId(j: AssetJob): string { j.id }
  function JobStage(j: AssetJob): string { j.stagingPath }

  predicate TransformOk(t: TransformRecipe, pins: set<Toolchain>) {
    match t
    case Images(outputs) =>
      && 1 <= |outputs| <= 128 && Ffmpeg in pins && DistinctBy(outputs, ImageId, |outputs|)
      && forall i :: 0 <= i < |outputs| ==> ImageOk(outputs[i])
    case Videos(outputs) =>
      && 1 <= |outputs| <= 128 && Ffmpeg in pins && DistinctBy(outputs, VideoId, |outputs|)
      && forall i :: 0 <= i < |outputs| ==> VideoOk(outputs[i])
    case Fonts(outputs) =>
      && 1 <= |outputs| <= 128 && Fonttools in pins && DistinctBy(outputs, FontId, |outputs|)
      && forall i :: 0 <= i < |outputs| ==> FontOk(outputs[i])
    case Scenes(outputs) =>
      && 1 <= |outputs| <= 128 && {GltfTransform, Ktx2Encoder} <= pins && DistinctBy(outputs, SceneId, |outputs|)
      && forall i :: 0 <= i < |outputs| ==> SceneOk(outputs[i], pins)
  }

  predicate AssetOk(a: AssetRecipe, pins: set<Toolchain>) {
    ValidIdentifier(a.id) && RelativePathOk(a.input) && TransformOk(a.transform, pins)
  }

  const MAX_ASSETS: nat := 512
  const MAX_JOBS: nat := 4096

  // The part of validate_recipe_contract about assets.
  predicate AssetsOk(assets: seq<AssetRecipe>, pins: set<Toolchain>) {
    && 1 <= |assets| <= MAX_ASSETS
    && DistinctBy(assets, AssetId, |assets|)
    && forall i :: 0 <= i < |assets| ==> AssetOk(assets[i], pins)
  }

  // The loop over the outputs of one asset: every id new, every output valid.
  method CheckOutputs<T>(outputs: seq<T>, key: T -> string, valid: T -> bool) returns (ok: bool)
    ensures ok <==> DistinctBy(outputs, key, |outputs|) && forall i :: 0 <= i < |outputs| ==> valid(outputs[i])
  {
    var ids: set<string> := {};
    for i := 0 to |outputs|
      invariant ids == set k | 0 <= k < i :: key(outputs[k])
      invariant DistinctBy(outputs, key, i)
      invariant forall k :: 0 <= k < i ==> valid(outputs[k])
    {
      if key(outputs[i]) in ids {
        var k :| 0 <= k < i && key(outputs[k]) == key(outputs[i]);
        return false;
      }
      if !valid(outputs[i]) {
        return false;
      }
      ids := ids + {key(outputs[i])};
    }
    return true;
  }

  function SceneTest(pins: set<Toolchain>): SceneOutput -> bool {
    (o: SceneOutput) => SceneOk(o, pins)
  }

  method ValidateTransform(t: TransformRecipe, pins: set<Toolchain>) returns (ok: bool)
    ensures ok <==> TransformOk(t, pins)
  {
    match t
    case Images(outputs) =>
      if !(1 <= |outputs| <= 128) || Ffmpeg !in pins {
        return false;
      }
      ok := CheckOutputs(outputs, ImageId, ImageOk);
    case Videos(outputs) =>
      if !(1 <= |outputs| <= 128) || Ffmpeg !in pins {
        return false;
      }
      ok := CheckOutputs(outputs, VideoId, VideoOk);
    case Fonts(outputs) =>
      if !(1 <= |outputs| <= 128) || Fonttools !in pins {
        return false;
      }
      ok := CheckOutputs(outputs, FontId, FontOk);
    case Scenes(outputs) =>
      if !(1 <= |outputs| <= 128) || GltfTransform !in pins || Ktx2Encoder !in pins {
        return false;
      }
      ok := CheckOutputs(outputs, SceneId, SceneTest(pins));
  }

  method ValidateAssets(assets: seq<AssetRecipe>, pins: set<Toolchain>) returns (ok: bool)
    ensures ok <==> AssetsOk(assets, pins)
  {
    if !(1 <= |assets| <= MAX_ASSETS) {
      return false;
    }
    var ids: set<string> := {};
    for i := 0 to |assets|
      invariant ids == set k | 0 <= k < i :: assets[k].id
      invariant DistinctBy(assets, AssetId, i)
      invariant forall k :: 0 <= k < i ==> AssetOk(assets[k], pins)
    {
      var asset := assets[i];
      if asset.id in ids {
        var k :| 0 <= k < i && assets[k].id == asset.id;
        assert AssetId(assets[k]) == AssetId(assets[i]);
        return false;
      }
      if !ValidIdentifier(asset.id) || !RelativePathOk(asset.input) {
        assert !AssetOk(assets[i], pins);
        return false;
      }
      ok := ValidateTransform(asset.transform, pins);
      if !ok {
        assert !AssetOk(assets[i], pins);
        return false;
      }
      ids := ids + {asset.id};
    }
    return true;
  }

  // ---- The planner -----------------------------------------------------------------------------------

  function RgbaBytes(width: u32, height: u32): Option<u64> {
    var pixels := width * height;
    if pixels >= TWO_TO_THE_64 || pixels * 4 >= TWO_TO_THE_64 then None else Some(pixels * 4)
  }

  function JobName(assetId: string, variantId: string): string {
    assetId + ("." + variantId)
  }

  const STAGE := ".pliego-assets/stage/"

  function StagePath(assetId: string, variantId: string, format: ArtifactFormat): string {
    STAGE + (assetId + ("." + (variantId + ("." + Extension(format)))))
  }

  // push_job.
  function MakeJob(
    assetId: string, variantId: string, format: ArtifactFormat, tools: set<Toolchain>, policy: B.LoadPolicy,
    operation: JobOperation, decoded: u64, triangles: u64, drawCalls: u64): AssetJob
  {
    AssetJob(
      JobName(assetId, variantId), assetId, variantId, StagePath(assetId, variantId, format), format,
      if operation.FontJob? then None else Some(assetId), tools, policy, operation, decoded, triangles, drawCalls)
  }

  function PlanImage(assetId: string): ImageOutput -> Option<AssetJob> {
    (o: ImageOutput) =>
      var decoded := RgbaBytes(o.width, o.height);
      if decoded.None? then None
      else Some(MakeJob(assetId, o.id, ImageArtifact(o.format), {Ffmpeg}, o.policy,
                        ImageJob(o.width, o.height, o.format, o.quality), decoded.value, 0, 0))
  }

  function PlanVideo(assetId: string): VideoOutput -> Option<AssetJob> {
    (o: VideoOutput) =>
      var frame := RgbaBytes(o.width, o.height);
      if frame.None? || frame.value * 3 >= TWO_TO_THE_64 then None
      else Some(MakeJob(assetId, o.id, VideoArtifact(o.format), {Ffmpeg}, o.policy,
                        VideoJob(o.width, o.height, o.format, o.bitrateKbps, o.maxFps, o.audio), frame.value * 3, 0, 0))
  }

  function PlanFont(assetId: string): FontOutput -> Option<AssetJob> {
    (o: FontOutput) =>
      Some(MakeJob(assetId, o.id, Woff2File, {Fonttools}, o.policy, FontJob(o.glyphs, o.unicodeRange), 0, 0, 0))
  }

  function PlanScene(assetId: string): SceneOutput -> Option<AssetJob> {
    (o: SceneOutput) =>
      var decoded := RgbaBytes(o.maxTextureDimension, o.maxTextureDimension);
      if decoded.None? then None
      else Some(MakeJob(assetId, o.id, GlbFile,
                        {GltfTransform, Ktx2Encoder} + (if o.requiresBlender then {Blender} else {}), o.policy,
                        SceneJob(o.maxTriangles, o.maxDrawCalls, o.maxTextureDimension, o.requiresBlender),
                        decoded.value, o.maxTriangles, o.maxDrawCalls))
  }

  // The jobs of the first n outputs; None once an estimate does not fit.
  function PlanTo<T>(outputs: seq<T>, plan: T -> Option<AssetJob>, n: nat): (r: Option<seq<AssetJob>>)
    requires n <= |outputs|
    ensures r.Some? ==> |r.value| == n && forall i :: 0 <= i < n ==> plan(outputs[i]) == Some(r.value[i])
  {
    if n == 0 then Some([])
    else
      var before, job := PlanTo(outputs, plan, n - 1), plan(outputs[n - 1]);
      if before.None? || job.None? then None else Some(before.value + [job.value])
  }

  lemma {:induction false} PlanFails<T>(outputs: seq<T>, plan: T -> Option<AssetJob>, n: nat)
    requires n <= |outputs|
    ensures PlanTo(outputs, plan, n).None? <==> exists i :: 0 <= i < n && plan(outputs[i]).None?
  {
    if n > 0 {
      PlanFails(outputs, plan, n - 1);
    }
  }

  method AppendEach<T>(outputs: seq<T>, plan: T -> Option<AssetJob>) returns (jobs: Option<seq<AssetJob>>)
    ensures jobs == PlanTo(outputs, plan, |outputs|)
  {
    var done: seq<AssetJob> := [];
    for i := 0 to |outputs|
      invariant PlanTo(outputs, plan, i) == Some(done)
    {
      var job := plan(outputs[i]);
      if job.None? {
        PlanFails(outputs, plan, |outputs|);
        return None;
      }
      done := done + [job.value];
    }
    return Some(done);
  }

  function JobsOf(a: AssetRecipe): Option<seq<AssetJob>> {
    match a.transform
    case Images(outputs) => PlanTo(outputs, PlanImage(a.id), |outputs|)
    case Videos(outputs) => PlanTo(outputs, PlanVideo(a.id), |outputs|)
    case Fonts(outputs) => PlanTo(outputs, PlanFont(a.id), |outputs|)
    case Scenes(outputs) => PlanTo(outputs, PlanScene(a.id), |outputs|)
  }

  method AppendJobs(a: AssetRecipe) returns (jobs: Option<seq<AssetJob>>)
    ensures jobs == JobsOf(a)
  {
    match a.transform
    case Images(outputs) => jobs := AppendEach(outputs, PlanImage(a.id));
    case Videos(outputs) => jobs := AppendEach(outputs, PlanVideo(a.id));
    case Fonts(outputs) => jobs := AppendEach(outputs, PlanFont(a.id));
    case Scenes(outputs) => jobs := AppendEach(outputs, PlanScene(a.id));
  }

  // The decoded size some output asks for, in exact arithmetic.
  predicate SomeEstimateOverflows(t: TransformRecipe) {
    match t
    case Images(outputs) => exists i :: 0 <= i < |outputs| && 4 * (outputs[i].width * outputs[i].height) >= TWO_TO_THE_64
    case Videos(outputs) => exists i :: 0 <= i < |outputs| && 12 * (outputs[i].width * outputs[i].height) >= TWO_TO_THE_64
    case Fonts(_) => false
    case Scenes(outputs) =>
      exists i :: 0 <= i < |outputs| && 4 * (outputs[i].maxTextureDimension * outputs[i].maxTextureDimension) >= TWO_TO_THE_64
  }

  // append_jobs fails exactly when an exact estimate does not fit u64.
  lemma AppendFailsIff(a: AssetRecipe)
    ensures JobsOf(a).None? <==> SomeEstimateOverflows(a.transform)
  {
    match a.transform
    case Images(outputs) =>
      PlanFails(outputs, PlanImage(a.id), |outputs|);
      forall i | 0 <= i < |outputs|
        ensures PlanImage(a.id)(outputs[i]).None? <==> 4 * (outputs[i].width * outputs[i].height) >= TWO_TO_THE_64
      {
      }
    case Videos(outputs) =>
      PlanFails(outputs, PlanVideo(a.id), |outputs|);
      forall i | 0 <= i < |outputs|
        ensures PlanVideo(a.id)(outputs[i]).None? <==> 12 * (outputs[i].width * outputs[i].height) >= TWO_TO_THE_64
      {
      }
    case Fonts(outputs) =>
      PlanFails(outputs, PlanFont(a.id), |outputs|);
    case Scenes(outputs) =>
      PlanFails(outputs, PlanScene(a.id), |outputs|);
  }

  // ---- What the jobs carry ---------------------------------------------------------------------------

  // The names of a job, and its selection group.
  predicate NamedAfter(job: AssetJob, assetId: string, variantId: string, extension: string, grouped: bool) {
    && job.sourceId == assetId && job.variantId == variantId
    && job.id == assetId + "." + variantId
    && job.stagingPath == ".pliego-assets/stage/" + assetId + "." + variantId + "." + extension
    && job.selectionGroup == (if grouped then Some(assetId) else None)
  }

  predicate CarriesImage(job: AssetJob, assetId: string, o: ImageOutput) {
    && job.operation.ImageJob? && job.operation.width == o.width && job.operation.height == o.height
    && job.operation.image == o.format && job.operation.quality == o.quality
    && job.policy == o.policy && job.requiredToolchains == {Ffmpeg}
    && job.estimatedDecodedBytes == 4 * (o.width * o.height)
    && job.estimatedTriangles == 0 && job.estimatedDrawCalls == 0
    && match o.format
       case Avif => job.format == AvifFile && NamedAfter(job, assetId, o.id, "avif", true)
       case Webp => job.format == WebpFile && NamedAfter(job, assetId, o.id, "webp", true)
       case Jpeg => job.format == JpegFile && NamedAfter(job, assetId, o.id, "jpg", true)
  }

  predicate CarriesVideo(job: AssetJob, assetId: string, o: VideoOutput) {
    && job.operation.VideoJob? && job.operation.width == o.width && job.operation.height == o.height
    && job.operation.video == o.format && job.operation.bitrateKbps == o.bitrateKbps
    && job.operation.maxFps == o.maxFps && job.operation.audio == o.audio
    && job.policy == o.policy && job.requiredToolchains == {Ffmpeg}
    && job.estimatedDecodedBytes == 12 * (o.width * o.height)
    && job.estimatedTriangles == 0 && job.estimatedDrawCalls == 0
    && match o.format
       case WebmVp9 => job.format == WebmFile && NamedAfter(job, assetId, o.id, "webm", true)
       case Mp4H264 | Mp4Av1 => job.format == Mp4File && NamedAfter(job, assetId, o.id, "mp4", true)
  }

  predicate CarriesFont(job: AssetJob, assetId: string, o: FontOutput) {
    && job.operation.FontJob? && job.operation.glyphs == o.glyphs && job.operation.unicodeRange == o.unicodeRange
    && job.policy == o.policy && job.requiredToolchains == {Fonttools}
    && job.estimatedDecodedBytes == 0 && job.estimatedTriangles == 0 && job.estimatedDrawCalls == 0
    && job.format == Woff2File && NamedAfter(job, assetId, o.id, "woff2", false)
  }

  predicate CarriesScene(job: AssetJob, assetId: string, o: SceneOutput) {
    && job.operation.SceneJob? && job.operation.maxTriangles == o.maxTriangles
    && job.operation.maxDrawCalls == o.maxDrawCalls && job.operation.maxTextureDimension == o.maxTextureDimension
    && job.operation.requiresBlender == o.requiresBlender
    && job.policy == o.policy
    && (forall tool :: tool in job.requiredToolchains <==>
          tool == GltfTransform || tool == Ktx2Encoder || (tool == Blender && o.requiresBlender))
    && job.estimatedDecodedBytes == 4 * (o.maxTextureDimension * o.maxTextureDimension)
    && job.estimatedTriangles == o.maxTriangles && job.estimatedDrawCalls == o.maxDrawCalls
    && job.format == GlbFile && NamedAfter(job, assetId, o.id, "glb", true)
  }

  // One job per output, in order, carrying every field of it.
  predicate Carries(t: TransformRecipe, assetId: string, jobs: seq<AssetJob>) {
    match t
    case Images(outputs) =>
      |jobs| == |outputs| && forall i :: 0 <= i < |jobs| ==> CarriesImage(jobs[i], assetId, outputs[i])
    case Videos(outputs) =>
      |jobs| == |outputs| && forall i :: 0 <= i < |jobs| ==> CarriesVideo(jobs[i], assetId, outputs[i])
    case Fonts(outputs) =>
      |jobs| == |outputs| && forall i :: 0 <= i < |jobs| ==> CarriesFont(jobs[i], assetId, outputs[i])
    case Scenes(outputs) =>
      |jobs| == |outputs| && forall i :: 0 <= i < |jobs| ==> CarriesScene(jobs[i], assetId, outputs[i])
  }

  lemma StageText(assetId: string, variantId: string, extension: string)
    ensures STAGE + (assetId + ("." + (variantId + ("." + extension))))
      == ".pliego-assets/stage/" + assetId + "." + variantId + "." + extension
    ensures assetId + ("." + variantId) == assetId + "." + variantId
  {
    var a, b, c := ".pliego-assets/stage/", "." + variantId, "." + extension;
    assert assetId + ("." + (variantId + c)) == (assetId + ("." + variantId)) + c;
    assert a + ((assetId + b) + c) == ((a + assetId) + b) + c;
    assert ((a + assetId) + b) + c == a + assetId + "." + variantId + "." + extension;
  }

  lemma MadeJobNamed(
    assetId: string, variantId: string, format: ArtifactFormat, tools: set<Toolchain>, policy: B.LoadPolicy,
    operation: JobOperation, decoded: u64, triangles: u64, drawCalls: u64)
    ensures NamedAfter(
      MakeJob(assetId, variantId, format, tools, policy, operation, decoded, triangles, drawCalls),
      assetId, variantId, Extension(format), !operation.FontJob?)
  {
    StageText(assetId, variantId, Extension(format));
  }

  lemma ImageCarried(assetId: string, o: ImageOutput, job: AssetJob)
    requires PlanImage(assetId)(o) == Some(job)
    ensures CarriesImage(job, assetId, o)
  {
    MadeJobNamed(
      assetId, o.id, job.format, job.requiredToolchains, job.policy, job.operation,
      job.estimatedDecodedBytes, job.estimatedTriangles, job.estimatedDrawCalls);
    hide NamedAfter, StagePath, JobName;
  }

  lemma VideoCarried(assetId: string, o: VideoOutput, job: AssetJob)
    requires PlanVideo(assetId)(o) == Some(job)
    ensures CarriesVideo(job, assetId, o)
  {
    MadeJobNamed(
      assetId, o.id, job.format, job.requiredToolchains, job.policy, job.operation,
      job.estimatedDecodedBytes, job.estimatedTriangles, job.estimatedDrawCalls);
    hide NamedAfter, StagePath, JobName;
  }

  lemma FontCarried(assetId: string, o: FontOutput, job: AssetJob)
    requires PlanFont(assetId)(o) == Some(job)
    ensures CarriesFont(job, assetId, o)
  {
    MadeJobNamed(
      assetId, o.id, job.format, job.requiredToolchains, job.policy, job.operation,
      job.estimatedDecodedBytes, job.estimatedTriangles, job.estimatedDrawCalls);
    hide NamedAfter, StagePath, JobName;
  }

  lemma SceneCarried(assetId: string, o: SceneOutput, job: AssetJob)
    requires PlanScene(assetId)(o) == Some(job)
    ensures CarriesScene(job, assetId, o)
  {
    MadeJobNamed(
      assetId, o.id, job.format, job.requiredToolchains, job.policy, job.operation,
      job.estimatedDecodedBytes, job.estimatedTriangles, job.estimatedDrawCalls);
    hide NamedAfter, StagePath, JobName;
  }

  // The planner passes every field of every output on, in order.
  lemma JobsCarryOutputs(a: AssetRecipe)
    requires JobsOf(a).Some?
    ensures Carries(a.transform, a.id, JobsOf(a).value)
  {
    hide CarriesImage, CarriesVideo, CarriesFont, CarriesScene, PlanImage, PlanVideo, PlanFont, PlanScene;
    var jobs := JobsOf(a).value;
    match a.transform
    case Images(outputs) =>
      forall i | 0 <= i < |jobs| ensures CarriesImage(jobs[i], a.id, outputs[i]) {
        ImageCarried(a.id, outputs[i], jobs[i]);
      }
    case Videos(outputs) =>
      forall i | 0 <= i < |jobs| ensures CarriesVideo(jobs[i], a.id, outputs[i]) {
        VideoCarried(a.id, outputs[i], jobs[i]);
      }
    case Fonts(outputs) =>
      forall i | 0 <= i < |jobs| ensures CarriesFont(jobs[i], a.id, outputs[i]) {
        FontCarried(a.id, outputs[i], jobs[i]);
      }
    case Scenes(outputs) =>
      forall i | 0 <= i < |jobs| ensures CarriesScene(jobs[i], a.id, outputs[i]) {
        SceneCarried(a.id, outputs[i], jobs[i]);
      }
  }

  // No two outputs give the same job.
  lemma JobTellsOutput(job: AssetJob, a: string, b: string)
    ensures forall o, p :: CarriesImage(job, a, o) && CarriesImage(job, b, p) ==> a == b && o == p
    ensures forall o, p :: CarriesVideo(job, a, o) && CarriesVideo(job, b, p) ==> a == b && o == p
    ensures forall o, p :: CarriesFont(job, a, o) && CarriesFont(job, b, p) ==> a == b && o == p
    ensures forall o, p :: CarriesScene(job, a, o) && CarriesScene(job, b, p) ==> a == b && o == p
  {
  }

  lemma SameKind(t: TransformRecipe, u: TransformRecipe, a: string, b: string, jobs: seq<AssetJob>)
    requires Carries(t, a, jobs) && Carries(u, b, jobs) && jobs != []
    ensures (t.Images? <==> u.Images?) && (t.Videos? <==> u.Videos?) && (t.Fonts? <==> u.Fonts?)
  {
    hide NamedAfter;
    var operation := jobs[0].operation;
    assert t.Images? <==> operation.ImageJob?;
    assert u.Images? <==> operation.ImageJob?;
    assert t.Videos? <==> operation.VideoJob?;
    assert u.Videos? <==> operation.VideoJob?;
  }

  // The asset can be read back from its jobs: no two assets are planned alike.
  lemma JobsTellAsset(a: AssetRecipe, b: AssetRecipe)
    requires JobsOf(a).Some? && JobsOf(a) == JobsOf(b) && JobsOf(a).value != []
    ensures a.id == b.id && a.transform == b.transform
  {
    var jobs := JobsOf(a).value;
    JobsCarryOutputs(a);
    JobsCarryOutputs(b);
    SameKind(a.transform, b.transform, a.id, b.id, jobs);
    hide JobsOf, CarriesImage, CarriesVideo, CarriesFont, CarriesScene;
    forall i | 0 <= i < |jobs|
      ensures a.transform.Images? ==> a.id == b.id && a.transform.images[i] == b.transform.images[i]
      ensures a.transform.Videos? ==> a.id == b.id && a.transform.videos[i] == b.transform.videos[i]
      ensures a.transform.Fonts? ==> a.id == b.id && a.transform.fonts[i] == b.transform.fonts[i]
      ensures a.transform.Scenes? ==> a.id == b.id && a.transform.scenes[i] == b.transform.scenes[i]
    {
      JobTellsOutput(jobs[i], a.id, b.id);
    }
    assert jobs[0] in jobs;
  }

  // All assets, in recipe order.
  function AllJobs(assets: seq<AssetRecipe>, n: nat): Option<seq<AssetJob>>
    requires n <= |assets|
  {
    if n == 0 then Some([])
    else
      var before, jobs := AllJobs(assets, n - 1), JobsOf(assets[n - 1]);
      if before.None? || jobs.None? then None else Some(before.value + jobs.value)
  }

  lemma JobsStep(assets: seq<AssetRecipe>, n: nat)
    requires n < |assets| && AllJobs(assets, n + 1).Some?
    ensures AllJobs(assets, n).Some? && |AllJobs(assets, n).value| <= |AllJobs(assets, n + 1).value|
  {
    hide JobsOf;
  }

  // What fits in the end fitted all along.
  lemma {:induction false} JobsGrow(assets: seq<AssetRecipe>, m: nat, n: nat)
    requires m <= n <= |assets| && AllJobs(assets, n).Some?
    ensures AllJobs(assets, m).Some? && |AllJobs(assets, m).value| <= |AllJobs(assets, n).value|
    decreases n
  {
    hide JobsOf;
    if m < n {
      JobsStep(assets, n - 1);
      JobsGrow(assets, m, n - 1);
    }
  }

  // The job part of plan_adaptive_assets.
  method PlanJobs(assets: seq<AssetRecipe>) returns (jobs: Option<seq<AssetJob>>)
    ensures jobs.Some? <==>
      AllJobs(assets, |assets|).Some? && |AllJobs(assets, |assets|).value| <= MAX_JOBS
    ensures jobs.Some? ==> jobs.value == SortBy(AllJobs(assets, |assets|).value, JobId)
  {
    hide JobsOf;
    var done: seq<AssetJob> := [];
    for i := 0 to |assets|
      invariant AllJobs(assets, i) == Some(done) && |done| <= MAX_JOBS
    {
      var more := AppendJobs(assets[i]);
      if AllJobs(assets, |assets|).Some? {
        JobsGrow(assets, i + 1, |assets|);
      }
      if more.None? {
        return None;
      }
      done := done + more.value;
      if |done| > MAX_JOBS {
        return None;
      }
    }
    return Some(SortBy(done, JobId));
  }

  // ---- The validator of plans ------------------------------------------------------------------------

  function OperationFamily(op: JobOperation): Family {
    match op
    case ImageJob(_, _, _, _) => ImageFamily
    case VideoJob(_, _, _, _, _, _) => VideoFamily
    case FontJob(_, _) => FontFamily
    case SceneJob(_, _, _, _) => SceneFamily
  }

  predicate ParametersOk(op: JobOperation) {
    match op
    case ImageJob(width, height, _, quality) => width != 0 && height != 0 && 1 <= quality <= 100
    case VideoJob(width, height, _, bitrate, fps, _) => width != 0 && height != 0 && bitrate != 0 && 0 < fps <= 240
    case FontJob(glyphs, unicodeRange) => FontTextOk(glyphs, unicodeRange)
    case SceneJob(triangles, drawCalls, dimension, _) => triangles != 0 && drawCalls != 0 && 0 < dimension <= 16384
  }

  datatype Estimate = Estimate(
    format: ArtifactFormat, tools: set<Toolchain>, decoded: u64, triangles: u64, drawCalls: u64)

  // What the validator recomputes from the operation; None when an estimate does not fit.
  function EstimateOf(op: JobOperation): Option<Estimate> {
    match op
    case ImageJob(width, height, image, _) =>
      var decoded := RgbaBytes(width, height);
      if decoded.None? then None else Some(Estimate(ImageArtifact(image), {Ffmpeg}, decoded.value, 0, 0))
    case VideoJob(width, height, video, _, _, _) =>
      var frame := RgbaBytes(width, height);
      if frame.None? || frame.value * 3 >= TWO_TO_THE_64 then None
      else Some(Estimate(VideoArtifact(video), {Ffmpeg}, frame.value * 3, 0, 0))
    case FontJob(_, _) => Some(Estimate(Woff2File, {Fonttools}, 0, 0, 0))
    case SceneJob(triangles, drawCalls, dimension, requiresBlender) =>
      var tools := {GltfTransform, Ktx2Encoder};
      var decoded := RgbaBytes(dimension, dimension);
      if decoded.None? then None
      else Some(Estimate(GlbFile, if requiresBlender then tools + {Blender} else tools, decoded.value, triangles, drawCalls))
  }

  // validate_job_contract.
  predicate ContractOk(job: AssetJob) {
    && ParametersOk(job.operation)
    && EstimateOf(job.operation)
       == Some(Estimate(job.format, job.requiredToolchains, job.estimatedDecodedBytes, job.estimatedTriangles, job.estimatedDrawCalls))
    && job.selectionGroup == if job.operation.FontJob? then None else Some(job.sourceId)
  }

  predicate IdentityOk(job: AssetJob, sources: set<string>) {
    && ValidDottedIdentifier(job.id) && ValidIdentifier(job.sourceId) && ValidIdentifier(job.variantId)
    && job.sourceId in sources
    && job.id == job.sourceId + "." + job.variantId
  }

  predicate JobOk(job: AssetJob, sources: set<string>, pins: set<Toolchain>) {
    && IdentityOk(job, sources)
    && RelativePathOk(job.stagingPath)
    && job.stagingPath == STAGE + job.id + "." + Extension(job.format)
    && job.requiredToolchains <= pins
    && PolicyOk(job.policy, OperationFamily(job.operation))
    && ContractOk(job)
  }

  // The job checks of validate_plan.
  predicate JobsOk(jobs: seq<AssetJob>, sources: set<string>, pins: set<Toolchain>) {
    && |jobs| <= MAX_JOBS
    && DistinctBy(jobs, JobId, |jobs|)
    && forall i :: 0 <= i < |jobs| ==> JobOk(jobs[i], sources, pins)
  }

  method ValidateJobs(jobs: seq<AssetJob>, sources: set<string>, pins: set<Toolchain>) returns (ok: bool)
    ensures ok <==> JobsOk(jobs, sources, pins)
  {
    if |jobs| > MAX_JOBS {
      return false;
    }
    var seen: set<string> := {};
    for i := 0 to |jobs|
      invariant seen == set k | 0 <= k < i :: jobs[k].id
      invariant DistinctBy(jobs, JobId, i)
      invariant forall k :: 0 <= k < i ==> JobOk(jobs[k], sources, pins)
    {
      if jobs[i].id in seen {
        var k :| 0 <= k < i && jobs[k].id == jobs[i].id;
        assert JobId(jobs[k]) == JobId(jobs[i]);
        return false;
      }
      if !JobOk(jobs[i], sources, pins) {
        return false;
      }
      seen := seen + {jobs[i].id};
    }
    return true;
  }
}
