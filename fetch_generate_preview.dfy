/** The preview script run inside the blender container: download the listed
    blend files of the garment bucket, render a preview of every blend file it
    finds under the data directory, and upload each as
    `previews/{clothing}/{gender}.png`. */
module FetchGeneratePreview {
  import opened Wrappers
  import opened PyStr
  import opened Storage
  import opened Scripts

  const ClothesDir := "/data"

  /** The object names `list_objects` yields, in the store's order. */
  function Listing(w: World, bucket: string): seq<string> {
    if bucket in w.buckets then Names(w.buckets[bucket]) else []
  }

  /** The listed names the script downloads: those among the missing paths. */
  function Wanted(listing: seq<string>, missing: seq<string>): seq<string> {
    Filter(listing, n => n in missing)
  }

  /** One download per wanted name, each to the same path under the data
      directory. */
  function FetchSteps(bucket: string, names: seq<string>): (r: seq<Step>)
    ensures |r| == |names|
    ensures forall i :: 0 <= i < |r| ==> r[i] == Fetch(bucket, names[i], PathJoin(ClothesDir, names[i]))
  {
    if names == [] then [] else [Fetch(bucket, names[0], PathJoin(ClothesDir, names[0]))] + FetchSteps(bucket, names[1..])
  }

  /** A blend file found at `rel` under the data directory: the path handed
      to the renderer. */
  function BlendPath(rel: string): string {
    PathJoin(ClothesDir, rel)
  }

  /** `output_file_path`: the renderer's output, under `os.path.join(root,
      "/previews")`. */
  function OutputFile(rel: string): string
    requires |Split(rel, '/')| >= 2
  {
    PathJoin(Dirname(BlendPath(rel)), "/previews") + "/" + Split(rel, '/')[0] + "/" + Split(rel, '/')[1] + ".png"
  }

  /** `upload_path` */
  function UploadPath(rel: string): string
    requires |Split(rel, '/')| >= 2
  {
    "previews/" + Split(rel, '/')[0] + "/" + Split(rel, '/')[1] + ".png"
  }

  function RenderArgv(rel: string): seq<string>
    requires |Split(rel, '/')| >= 2
  {
    ["blender", "-b", "-P", "generate_preview.py", "--", "--blend", BlendPath(rel), "--output", OutputFile(rel)]
  }

  predicate IsBlend(rel: string) { EndsWith(rel, ".blend") }

  /** A blend file whose relative path has fewer than two segments: reading
      its gender raises IndexError. */
  predicate Malformed(rel: string) { IsBlend(rel) && |Split(rel, '/')| < 2 }

  /** The render-and-upload steps for the walked files, in walk order, and
      whether the walk stops at a malformed blend file. Files that are not
      blend files are passed over. */
  function RenderSteps(bucket: string, walked: seq<string>): (seq<Step>, bool) {
    if walked == [] then ([], false)
    else
      var rel := walked[0];
      var rest := RenderSteps(bucket, walked[1..]);
      if !IsBlend(rel) then rest
      else if |Split(rel, '/')| < 2 then ([], true)
      else ([RunTool(RenderArgv(rel)), Upload(bucket, UploadPath(rel), OutputFile(rel))] + rest.0, rest.1)
  }

  /** The upload a well-formed blend file gets. */
  predicate UploadsPreviewOf(s: Step, bucket: string, rel: string) {
    IsBlend(rel) && |Split(rel, '/')| >= 2 && s == Upload(bucket, UploadPath(rel), OutputFile(rel))
  }

  /** The walk stops exactly when it meets a malformed blend file. */
  lemma {:induction false} RenderStopsAtMalformed(bucket: string, walked: seq<string>)
    ensures RenderSteps(bucket, walked).1 <==> exists i :: 0 <= i < |walked| && Malformed(walked[i])
  {
    if walked != [] {
      var tail := walked[1..];
      RenderStopsAtMalformed(bucket, tail);
      if exists i :: 0 <= i < |tail| && Malformed(tail[i]) {
        var i :| 0 <= i < |tail| && Malformed(tail[i]);
        assert walked[i + 1] == tail[i];
      }
      if (exists i :: 0 <= i < |walked| && Malformed(walked[i])) && !Malformed(walked[0]) {
        var i :| 0 <= i < |walked| && Malformed(walked[i]);
        assert i > 0 && tail[i - 1] == walked[i];
      }
    }
  }

  predicate RendersOnly(steps: seq<Step>) {
    forall i :: 0 <= i < |steps| ==> steps[i].RunTool? || steps[i].Upload?
  }

  lemma RendersOnlyPrepend(tool: Step, upload: Step, rest: seq<Step>)
    requires tool.RunTool? && upload.Upload? && RendersOnly(rest)
    ensures RendersOnly([tool, upload] + rest)
  {
    var r := [tool, upload] + rest;
    forall i | 2 <= i < |r| ensures r[i].RunTool? || r[i].Upload? {
      assert r[i] == rest[i - 2];
    }
  }

  /** The walk only renders and uploads. */
  lemma {:induction false} RenderStepsKinds(bucket: string, walked: seq<string>)
    ensures RendersOnly(RenderSteps(bucket, walked).0)
  {
    if walked != [] {
      var rel, rest := walked[0], RenderSteps(bucket, walked[1..]);
      RenderStepsKinds(bucket, walked[1..]);
      if IsBlend(rel) && |Split(rel, '/')| >= 2 {
        RendersOnlyPrepend(RunTool(RenderArgv(rel)), Upload(bucket, UploadPath(rel), OutputFile(rel)), rest.0);
      }
    }
  }

  /** Each upload is the preview of a walked blend file. */
  lemma {:induction false} RenderUploadsPreviews(bucket: string, walked: seq<string>, i: nat)
    requires i < |RenderSteps(bucket, walked).0| && RenderSteps(bucket, walked).0[i].Upload?
    ensures exists j :: 0 <= j < |walked| && UploadsPreviewOf(RenderSteps(bucket, walked).0[i], bucket, walked[j])
  {
    var rel, tail := walked[0], walked[1..];
    var rest := RenderSteps(bucket, tail);
    var r := RenderSteps(bucket, walked);
    if !IsBlend(rel) {
      RenderUploadsPreviews(bucket, tail, i);
      var j :| 0 <= j < |tail| && UploadsPreviewOf(rest.0[i], bucket, tail[j]);
      assert walked[j + 1] == tail[j];
    } else if i == 1 {
      assert UploadsPreviewOf(r.0[i], bucket, walked[0]);
    } else {
      assert r.0[i] == rest.0[i - 2];
      RenderUploadsPreviews(bucket, tail, i - 2);
      var j :| 0 <= j < |tail| && UploadsPreviewOf(rest.0[i - 2], bucket, tail[j]);
      assert walked[j + 1] == tail[j];
    }
  }

  /** When the walk does not stop, every blend file gets its upload. */
  lemma {:induction false} RenderStepsCover(bucket: string, walked: seq<string>, j: nat)
    requires j < |walked| && IsBlend(walked[j]) && !RenderSteps(bucket, walked).1
    ensures |Split(walked[j], '/')| >= 2
    ensures Upload(bucket, UploadPath(walked[j]), OutputFile(walked[j])) in RenderSteps(bucket, walked).0
  {
    var rel, tail := walked[0], walked[1..];
    var rest := RenderSteps(bucket, tail);
    if j == 0 {
      assert |Split(rel, '/')| >= 2;
    } else {
      assert tail[j - 1] == walked[j];
      if IsBlend(rel) {
        assert |Split(rel, '/')| >= 2;
      }
      RenderStepsCover(bucket, tail, j - 1);
    }
  }

  /** The checks and downloads that come before any rendering. */
  function Prefix(w: World, bucket: string, missing: seq<string>): seq<Step> {
    [CheckBucket(bucket), ListBucket(bucket)] + FetchSteps(bucket, Wanted(Listing(w, bucket), missing))
  }

  /** The steps of the script in the order it runs them, and whether it ends
      in an IndexError once they all succeed. Only a run that does not crash
      removes the data directory. */
  function Plan(w: World, bucket: string, missing: seq<string>, walked: seq<string>): (seq<Step>, bool) {
    var render := RenderSteps(bucket, walked);
    (Prefix(w, bucket, missing) + render.0 + (if render.1 then [] else [Cleanup([ClothesDir])]), render.1)
  }

  /** Where each part of the plan sits. */
  lemma PlanParts(w: World, bucket: string, missing: seq<string>, walked: seq<string>)
    ensures var plan, pre, render := Plan(w, bucket, missing, walked).0, Prefix(w, bucket, missing), RenderSteps(bucket, walked);
      && |pre| + |render.0| <= |plan|
      && (forall i :: 0 <= i < |pre| ==> plan[i] == pre[i])
      && (forall i :: 0 <= i < |render.0| ==> plan[|pre| + i] == render.0[i])
      && (forall i :: |pre| + |render.0| <= i < |plan| ==> plan[i] == Cleanup([ClothesDir]))
  {
  }

  lemma PlanFetchesFirst(w: World, bucket: string, missing: seq<string>, walked: seq<string>)
    ensures FetchesFirst(Plan(w, bucket, missing, walked).0)
  {
    PlanParts(w, bucket, missing, walked);
    RenderStepsKinds(bucket, walked);
    FetchesBefore(Plan(w, bucket, missing, walked).0, |Prefix(w, bucket, missing)|);
  }

  /** The script downloads exactly the listed objects named among the missing
      paths, in listing order. */
  lemma DownloadsExactly(w: World, bucket: string, missing: seq<string>, walked: seq<string>, n: string)
    ensures var plan := Plan(w, bucket, missing, walked).0;
      (exists i :: 0 <= i < |plan| && plan[i].Fetch? && plan[i].key == n)
      <==> n in Listing(w, bucket) && n in missing
    ensures IsSubsequence(Wanted(Listing(w, bucket), missing), Listing(w, bucket))
  {
    var plan := Plan(w, bucket, missing, walked).0;
    var names := Wanted(Listing(w, bucket), missing);
    var fetches := FetchSteps(bucket, names);
    var pre := Prefix(w, bucket, missing);
    PlanParts(w, bucket, missing, walked);
    RenderStepsKinds(bucket, walked);
    if exists i :: 0 <= i < |plan| && plan[i].Fetch? && plan[i].key == n {
      var i :| 0 <= i < |plan| && plan[i].Fetch? && plan[i].key == n;
      assert 2 <= i < |pre|;
      assert pre[i] == fetches[i - 2];
      assert n in names;
    }
    if n in Listing(w, bucket) && n in missing {
      assert n in names;
      var j :| 0 <= j < |names| && names[j] == n;
      assert pre[2 + j] == fetches[j];
    }
    FilterIsSubsequence(Listing(w, bucket), n => n in missing);
  }

  lemma PreviewsDirAbsolute(dir: string)
    ensures PathJoin(dir, "/previews") == "/previews"
  {
    assert StartsWith("/previews", "/");
  }

  /** The renderer writes under "/previews" whatever directory the blend file
      is in, since joining an absolute path drops what comes before it. */
  lemma OutputFileShape(rel: string)
    requires |Split(rel, '/')| >= 2
    ensures OutputFile(rel) == "/previews/" + Split(rel, '/')[0] + "/" + Split(rel, '/')[1] + ".png"
  {
    PreviewsDirAbsolute(Dirname(BlendPath(rel)));
    assert "/previews" + "/" == "/previews/";
  }

  /** A relative path `{clothing}/{gender}/{file}` is rendered to
      `/previews/{clothing}/{gender}.png` and uploaded as
      `previews/{clothing}/{gender}.png`. */
  lemma PreviewNames(clothing: string, gender: string, file: string)
    requires '/' !in clothing && '/' !in gender
    ensures var rel := clothing + "/" + gender + "/" + file;
      && |Split(rel, '/')| >= 2
      && UploadPath(rel) == "previews/" + clothing + "/" + gender + ".png"
      && OutputFile(rel) == "/previews/" + clothing + "/" + gender + ".png"
  {
    var rel := clothing + "/" + gender + "/" + file;
    SplitAtSeparator(clothing, gender + "/" + file, '/');
    SplitAtSeparator(gender, file, '/');
    assert rel == clothing + ['/'] + (gender + ['/'] + file);
    assert Split(rel, '/') == [clothing] + ([gender] + Split(file, '/'));
    OutputFileShape(rel);
  }

  /** A run whose steps all succeed and that meets no malformed blend file
      sends one upload request per rendered blend file, in walk order, stores a
      preview under every blend file's upload path, and leaves every other
      object of the bucket as it was. */
  lemma CompletedRunUploadsPreviews(w: World, bucket: string, missing: seq<string>, walked: seq<string>,
                                    writes: seq<Write>)
    requires Succeeds(w, Plan(w, bucket, missing, walked).0)
    requires !Plan(w, bucket, missing, walked).1
    ensures var plan := Plan(w, bucket, missing, walked).0;
      var after := Apply(w, plan, w.buckets, writes);
      && bucket in after.0
      && after.1 == writes + UploadRequests(plan)
      && (forall j :: 0 <= j < |walked| && IsBlend(walked[j]) ==>
            |Split(walked[j], '/')| >= 2 && Lookup(after.0[bucket], UploadPath(walked[j])).Some?)
      && (forall n :: !Uploads(plan, bucket, n) ==> Lookup(after.0[bucket], n) == Lookup(w.buckets[bucket], n))
  {
    var plan := Plan(w, bucket, missing, walked).0;
    var render := RenderSteps(bucket, walked);
    var pre := Prefix(w, bucket, missing);
    assert StepOk(w, plan[0]);
    SucceededWrites(w, plan, bucket, w.buckets, writes);
    PlanParts(w, bucket, missing, walked);
    forall j | 0 <= j < |walked| && IsBlend(walked[j])
      ensures |Split(walked[j], '/')| >= 2 && Uploads(plan, bucket, UploadPath(walked[j]))
    {
      RenderStepsCover(bucket, walked, j);
      var u := Upload(bucket, UploadPath(walked[j]), OutputFile(walked[j]));
      var i :| 0 <= i < |render.0| && render.0[i] == u;
      assert plan[|pre| + i] == u;
    }
  }

  /** The script, run as `python3 fetch_generate_preview.py` with `argv` as
      its `sys.argv` and `walked` the relative paths `os.walk` finds under the
      data directory once the downloads are done, in walk order. The usage
      check demands two entries, but three are read. */
  method FetchGeneratePreviewRun(store: ObjectStore, argv: seq<string>, walked: seq<string>,
                                 failingTools: set<seq<string>>, outputs: map<string, Bytes>,
                                 cleanupFails: bool)
    returns (exit: Exit, trace: seq<Step>)
    modifies store`buckets, store`writes
    ensures |argv| < 3 ==> trace == [] && store.buckets == old(store.buckets) && store.writes == old(store.writes)
    ensures |argv| < 2 ==> exit == ExitOne
    ensures |argv| == 2 ==> exit == Uncaught("IndexError")
    ensures |argv| >= 3 ==>
      var w := World(store.faults, store.keyFaults, old(store.buckets), failingTools, outputs, cleanupFails);
      var plan := Plan(w, argv[1], Split(argv[2], ','), walked);
      && trace == Attempted(w, plan.0)
      && exit == (if !Succeeds(w, plan.0) then ExitOne else if plan.1 then Uncaught("IndexError") else Completed)
      && (store.buckets, store.writes) == Apply(w, trace, old(store.buckets), old(store.writes))
  {
    if |argv| < 2 {
      return ExitOne, [];
    }
    if |argv| < 3 {
      return Uncaught("IndexError"), [];
    }
    var bucketName := argv[1];
    var missing := Split(argv[2], ',');
    var w := World(store.faults, store.keyFaults, store.buckets, failingTools, outputs, cleanupFails);
    var plan := Plan(w, bucketName, missing, walked);
    PlanFetchesFirst(w, bucketName, missing, walked);
    var ok;
    trace, ok := RunPlan(store, w, plan.0);
    exit := if !ok then ExitOne else if plan.1 then Uncaught("IndexError") else Completed;
  }
}
