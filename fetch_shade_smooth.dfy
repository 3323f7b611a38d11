/** The smoothing script run inside the blender container: fetch a mesh, shade
    it smooth, and upload the result next to it as `{stem}_smooth.obj`. */
module FetchShadeSmooth {
  import opened Wrappers
  import opened PyStr
  import opened Storage
  import opened Scripts

  const ObjDir := "/data"

  /** Where the mesh is downloaded to. */
  function LocalObjPath(objKey: string): string {
    PathJoin(ObjDir, Basename(objKey))
  }

  /** Where the smoothing tool leaves its result: every ".obj" in the local
      path becomes "_smooth.obj". */
  function SmoothLocalPath(objKey: string): string {
    ReplaceAll(LocalObjPath(objKey), ".obj", "_smooth.obj")
  }

  /** The key the result is uploaded under: the whole key without its
      extension, then "_smooth.obj". */
  function SmoothUploadKey(objKey: string): string {
    Stem(objKey) + "_smooth.obj"
  }

  function SmoothArgv(objPath: string): seq<string> {
    ["blender", "-b", "-P", "shade_smooth.py", "--", "--obj", objPath]
  }

  /** The steps of the script in the order it runs them. */
  function Plan(bucket: string, objKey: string): seq<Step> {
    [ CheckBucket(bucket),
      Fetch(bucket, objKey, LocalObjPath(objKey)),
      RunTool(SmoothArgv(LocalObjPath(objKey))),
      Upload(bucket, SmoothUploadKey(objKey), SmoothLocalPath(objKey)),
      Cleanup([ObjDir]) ]
  }

  lemma PlanFetchesFirst(bucket: string, objKey: string)
    ensures FetchesFirst(Plan(bucket, objKey))
  {
    FetchesBefore(Plan(bucket, objKey), 2);
  }

  /** A key `{dir}/{file}` is fetched to `/data/{file}`. */
  lemma LocalObjPathShape(dir: string, file: string)
    requires dir != "" && dir[|dir| - 1] != '/'
    requires file != "" && '/' !in file
    ensures LocalObjPath(dir + "/" + file) == "/data/" + file
  {
    BasenameDirname(dir, file);
    assert file[0] in file;
    PathJoinPlain(ObjDir, file);
  }

  /** `/data/{name}.obj` becomes `/data/{name}_smooth.obj` when the name holds
      no dot. */
  lemma SmoothOfLocal(name: string)
    requires '.' !in name
    ensures ReplaceAll("/data/" + name + ".obj", ".obj", "_smooth.obj") == "/data/" + name + "_smooth.obj"
  {
    var local := "/data/" + name;
    assert '.' !in local by {
      forall k | 0 <= k < |local| ensures local[k] != '.' {
        if k >= 6 { assert local[k] == name[k - 6] && name[k - 6] in name; }
      }
    }
    ReplaceTrailing(local, ".obj", "_smooth.obj");
  }

  /** For a key `{dir}/{name}.obj` whose name holds no dot, the mesh is fetched
      to `/data/{name}.obj`, the tool is expected to write
      `/data/{name}_smooth.obj`, and that file is uploaded as
      `{dir}/{name}_smooth.obj`: beside the mesh, under the same file name. */
  lemma SmoothPaths(dir: string, name: string)
    requires dir != "" && dir[|dir| - 1] != '/'
    requires name != "" && '/' !in name && '.' !in name
    ensures var objKey := dir + "/" + name + ".obj";
      && LocalObjPath(objKey) == "/data/" + name + ".obj"
      && SmoothLocalPath(objKey) == "/data/" + name + "_smooth.obj"
      && SmoothUploadKey(objKey) == dir + "/" + name + "_smooth.obj"
  {
    var file := name + ".obj";
    assert '/' !in file by {
      forall k | 0 <= k < |file| ensures file[k] != '/' {
        if k < |name| { assert file[k] in name; }
      }
    }
    assert dir + "/" + name + ".obj" == dir + "/" + file;
    LocalObjPathShape(dir, file);
    assert "/data/" + file == "/data/" + name + ".obj";
    SmoothOfLocal(name);
    assert name[|name| - 1] in name;
    SplitExtAt(dir + "/" + name, "obj");
    assert dir + "/" + name + ".obj" == (dir + "/" + name) + "." + "obj";
    assert (dir + "/" + name) + "_smooth.obj" == dir + "/" + name + "_smooth.obj";
  }

  /** The smoothed copy of the body model `{folder}/model.obj` is uploaded as
      `{folder}/model_smooth.obj`. */
  lemma ModelSmoothKey(folder: string)
    requires folder != "" && folder[|folder| - 1] != '/'
    ensures SmoothUploadKey(folder + "/model.obj") == folder + "/model_smooth.obj"
    ensures SmoothLocalPath(folder + "/model.obj") == "/data/model_smooth.obj"
  {
    var name := "model";
    assert '/' !in name && '.' !in name;
    assert "/" + name + ".obj" == "/model.obj";
    assert "/" + name + "_smooth.obj" == "/model_smooth.obj";
    assert "/data/" + name + "_smooth.obj" == "/data/model_smooth.obj";
    Regroup(folder, "/", name, ".obj");
    Regroup(folder, "/", name, "_smooth.obj");
    SmoothPaths(folder, name);
  }

  /** A run that completes stores the smoothed mesh under the upload key, leaves
      every other object as it was, and sends one write request. */
  lemma CompletedRunStoresSmooth(w: World, bucket: string, objKey: string, writes: seq<Write>)
    requires Succeeds(w, Plan(bucket, objKey))
    ensures var after := Apply(w, Plan(bucket, objKey), w.buckets, writes);
      && SmoothLocalPath(objKey) in w.outputs
      && bucket in after.0
      && Lookup(after.0[bucket], SmoothUploadKey(objKey)) == Some(w.outputs[SmoothLocalPath(objKey)])
      && (forall n :: n != SmoothUploadKey(objKey) ==> Lookup(after.0[bucket], n) == Lookup(w.buckets[bucket], n))
      && after.1 == writes + [Put(bucket, SmoothUploadKey(objKey), None)]
  {
    SucceededUpload(w, Plan(bucket, objKey), 3, writes);
  }

  /** A mesh that cannot be downloaded stops the script before the tool runs:
      nothing is uploaded. */
  lemma MissingMeshUploadsNothing(w: World, bucket: string, objKey: string, writes: seq<Write>)
    requires ObjectIn(w.faults, w.keyFaults, w.buckets, bucket, objKey).Failure?
    ensures var ran := Attempted(w, Plan(bucket, objKey));
      |ran| <= 2 && Apply(w, ran, w.buckets, writes) == (w.buckets, writes)
  {
    var plan := Plan(bucket, objKey);
    AttemptedReaches(w, plan, 2);
    assert !StepOk(w, plan[1]);
    var ran := Attempted(w, plan);
    ApplyWithoutUploads(w, ran, w.buckets, writes);
  }

  /** The script, run as `python3 fetch_shade_smooth.py` with `argv` as its
      `sys.argv`. The usage check demands two entries, but three are read. */
  method FetchShadeSmoothRun(store: ObjectStore, argv: seq<string>, failingTools: set<seq<string>>,
                             outputs: map<string, Bytes>, cleanupFails: bool)
    returns (exit: Exit, trace: seq<Step>)
    modifies store`buckets, store`writes
    ensures |argv| < 3 ==> trace == [] && store.buckets == old(store.buckets) && store.writes == old(store.writes)
    ensures |argv| < 2 ==> exit == ExitOne
    ensures |argv| == 2 ==> exit == Uncaught("IndexError")
    ensures |argv| >= 3 ==>
      var w := World(store.faults, store.keyFaults, old(store.buckets), failingTools, outputs, cleanupFails);
      var plan := Plan(argv[1], argv[2]);
      && trace == Attempted(w, plan)
      && (exit == Completed <==> Succeeds(w, plan))
      && (exit != Completed ==> exit == ExitOne)
      && (store.buckets, store.writes) == Apply(w, trace, old(store.buckets), old(store.writes))
  {
    if |argv| < 2 {
      return ExitOne, [];
    }
    if |argv| < 3 {
      return Uncaught("IndexError"), [];
    }
    var bucketName, objKey := argv[1], argv[2];
    var w := World(store.faults, store.keyFaults, store.buckets, failingTools, outputs, cleanupFails);
    PlanFetchesFirst(bucketName, objKey);
    var ok;
    trace, ok := RunPlan(store, w, Plan(bucketName, objKey));
    exit := if ok then Completed else ExitOne;
  }
}
