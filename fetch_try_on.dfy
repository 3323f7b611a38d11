/** The garment-fitting script run inside the blender container: fetch a body
    mesh and a garment, fit the garment to the body, and upload the fitted
    mesh and its material file into the body's folder. */
module FetchTryOn {
  import opened Wrappers
  import opened PyStr
  import opened Storage
  import opened Scripts

  const DataDir := "/data"

  /** Where a key is downloaded to: the data directory and the key's file name. */
  function LocalPath(key: string): string {
    PathJoin(DataDir, Basename(key))
  }

  /** `file_name`: the garment's file name with its extension swapped for ".obj". */
  function FileName(garmentKey: string): string {
    Stem(Basename(garmentKey)) + ".obj"
  }

  /** Where the fitting tool is told to write the fitted mesh. */
  function OutputPath(garmentKey: string): string {
    PathJoin(DataDir, FileName(garmentKey))
  }

  /** Where its material file is expected: every ".obj" in the output path
      becomes ".mtl". */
  function MtlPath(garmentKey: string): string {
    ReplaceAll(OutputPath(garmentKey), ".obj", ".mtl")
  }

  /** The fitted mesh's key: the body key's first segment and the file name. */
  function ObjUploadKey(objKey: string, garmentKey: string): string {
    PathJoin(FirstSegment(objKey, '/'), FileName(garmentKey))
  }

  function MtlUploadKey(objKey: string, garmentKey: string): string {
    PathJoin(FirstSegment(objKey, '/'), ReplaceAll(FileName(garmentKey), ".obj", ".mtl"))
  }

  function FitArgv(gender: string, objPath: string, garmentPath: string, quality: string,
                   color: string, outputPath: string): seq<string> {
    ["blender", "-b", "-P", "fit_clothes.py", "--",
     "--gender", gender,
     "--obj", objPath,
     "--garment", garmentPath,
     "--quality", quality,
     "--color", color,
     "--output", outputPath]
  }

  /** The steps of the script in the order it runs them. The garment bucket is
      checked only when the body bucket exists. */
  function Plan(objBucket: string, garmentBucket: string, objKey: string, garmentKey: string,
                gender: string, quality: string, color: string): seq<Step> {
    [ CheckBucket(objBucket),
      CheckBucket(garmentBucket),
      Fetch(objBucket, objKey, LocalPath(objKey)),
      Fetch(garmentBucket, garmentKey, LocalPath(garmentKey)),
      RunTool(FitArgv(gender, LocalPath(objKey), LocalPath(garmentKey), quality, color, OutputPath(garmentKey))),
      Upload(objBucket, ObjUploadKey(objKey, garmentKey), OutputPath(garmentKey)),
      Upload(objBucket, MtlUploadKey(objKey, garmentKey), MtlPath(garmentKey)),
      Cleanup([DataDir]) ]
  }

  lemma PlanFetchesFirst(objBucket: string, garmentBucket: string, objKey: string, garmentKey: string,
                         gender: string, quality: string, color: string)
    ensures FetchesFirst(Plan(objBucket, garmentBucket, objKey, garmentKey, gender, quality, color))
  {
    FetchesBefore(Plan(objBucket, garmentBucket, objKey, garmentKey, gender, quality, color), 4);
  }

  /** A garment `{dir}/{name}.blend` whose name holds no dot is written out
      as `{name}.obj`. */
  lemma FileNameShape(dir: string, name: string)
    requires dir != "" && dir[|dir| - 1] != '/'
    requires name != "" && '/' !in name && '.' !in name
    ensures FileName(dir + "/" + name + ".blend") == name + ".obj"
  {
    assert name + "." + "blend" == name + ".blend";
    var file := name + ".blend";
    assert '/' !in file by {
      forall k | 0 <= k < |file| ensures file[k] != '/' {
        if k < |name| { assert file[k] in name; }
      }
    }
    assert dir + "/" + name + ".blend" == dir + "/" + file;
    BasenameDirname(dir, file);
    assert name[|name| - 1] in name;
    SplitExtAt(name, "blend");
  }

  /** Swapping ".obj" for ".mtl" in `{prefix}{name}.obj`, where neither holds a
      dot, changes only the extension. */
  lemma MtlOfObj(prefix: string, name: string)
    requires '.' !in prefix && '.' !in name
    ensures ReplaceAll(prefix + name + ".obj", ".obj", ".mtl") == prefix + name + ".mtl"
  {
    var a := prefix + name;
    assert '.' !in a by {
      forall k | 0 <= k < |a| ensures a[k] != '.' {
        if k < |prefix| { assert a[k] in prefix; } else { assert a[k] == name[k - |prefix|] && name[k - |prefix|] in name; }
      }
    }
    ReplaceTrailing(a, ".obj", ".mtl");
  }

  /** A file name not starting with a slash lands in the data directory. */
  lemma InDataDir(file: string)
    requires file != "" && file[0] != '/'
    ensures PathJoin(DataDir, file) == "/data/" + file
  {
    PathJoinPlain(DataDir, file);
  }

  /** For a garment `{dir}/{name}.blend` the tool writes `/data/{name}.obj` and
      `/data/{name}.mtl`. */
  lemma LocalOutputs(dir: string, name: string)
    requires dir != "" && dir[|dir| - 1] != '/'
    requires name != "" && '/' !in name && '.' !in name
    ensures var garmentKey := dir + "/" + name + ".blend";
      && OutputPath(garmentKey) == "/data/" + name + ".obj"
      && MtlPath(garmentKey) == "/data/" + name + ".mtl"
  {
    var garmentKey := dir + "/" + name + ".blend";
    FileNameShape(dir, name);
    assert (name + ".obj")[0] == name[0] && name[0] in name;
    InDataDir(name + ".obj");
    assert "/data/" + (name + ".obj") == "/data/" + name + ".obj";
    MtlOfObj("/data/", name);
  }

  /** A file name starting with a non-slash lands in the folder. */
  lemma InFolder(folder: string, rest: string, file: string)
    requires folder != "" && '/' !in folder
    requires file != "" && file[0] != '/'
    ensures PathJoin(FirstSegment(folder + "/" + rest, '/'), file) == folder + "/" + file
  {
    FirstSegmentOf(folder, rest, '/');
    assert folder + "/" + rest == folder + ['/'] + rest;
    assert folder[|folder| - 1] in folder;
    PathJoinPlain(folder, file);
  }

  /** For a body key `{folder}/{rest}` and a garment `{dir}/{name}.blend`, the
      fitted mesh goes to `{folder}/{name}.obj`. */
  lemma ObjUploadKeyShape(folder: string, rest: string, dir: string, name: string)
    requires folder != "" && '/' !in folder
    requires dir != "" && dir[|dir| - 1] != '/'
    requires name != "" && '/' !in name && '.' !in name
    ensures ObjUploadKey(folder + "/" + rest, dir + "/" + name + ".blend") == folder + "/" + name + ".obj"
  {
    var obj := name + ".obj";
    FileNameShape(dir, name);
    assert name[0] in name && obj[0] == name[0];
    InFolder(folder, rest, obj);
    assert folder + "/" + obj == folder + "/" + name + ".obj";
  }

  /** and its material file to `{folder}/{name}.mtl`. */
  lemma MtlUploadKeyShape(folder: string, rest: string, dir: string, name: string)
    requires folder != "" && '/' !in folder
    requires dir != "" && dir[|dir| - 1] != '/'
    requires name != "" && '/' !in name && '.' !in name
    ensures MtlUploadKey(folder + "/" + rest, dir + "/" + name + ".blend") == folder + "/" + name + ".mtl"
  {
    var mtl := name + ".mtl";
    FileNameShape(dir, name);
    assert ".obj"[0] == '.';
    ReplaceTrailing(name, ".obj", ".mtl");
    assert name[0] in name && mtl[0] == name[0];
    InFolder(folder, rest, mtl);
    assert folder + "/" + mtl == folder + "/" + name + ".mtl";
  }

  /** A missing or unreadable body bucket ends the script at its first step;
      the garment bucket is not even checked. */
  lemma BodyBucketCheckedFirst(w: World, objBucket: string, garmentBucket: string, objKey: string,
                               garmentKey: string, gender: string, quality: string, color: string)
    requires !StepOk(w, CheckBucket(objBucket))
    ensures Attempted(w, Plan(objBucket, garmentBucket, objKey, garmentKey, gender, quality, color)) == [CheckBucket(objBucket)]
  {
    assert FirstFailure(w, Plan(objBucket, garmentBucket, objKey, garmentKey, gender, quality, color)) == 0;
  }

  /** A run that completes stores the fitted mesh and the material file in the
      body bucket, leaves every other object and every other bucket as it was,
      and sends the two upload requests in that order. When the two keys
      coincide the material file wins. */
  lemma CompletedRunStoresFit(w: World, objBucket: string, garmentBucket: string, objKey: string,
                              garmentKey: string, gender: string, quality: string, color: string,
                              writes: seq<Write>)
    requires Succeeds(w, Plan(objBucket, garmentBucket, objKey, garmentKey, gender, quality, color))
    ensures var after := Apply(w, Plan(objBucket, garmentBucket, objKey, garmentKey, gender, quality, color), w.buckets, writes);
      var k1, k2 := ObjUploadKey(objKey, garmentKey), MtlUploadKey(objKey, garmentKey);
      && OutputPath(garmentKey) in w.outputs && MtlPath(garmentKey) in w.outputs
      && objBucket in w.buckets && after.0.Keys == w.buckets.Keys
      && Lookup(after.0[objBucket], k2) == Some(w.outputs[MtlPath(garmentKey)])
      && (k1 != k2 ==> Lookup(after.0[objBucket], k1) == Some(w.outputs[OutputPath(garmentKey)]))
      && (forall n :: n != k1 && n != k2 ==> Lookup(after.0[objBucket], n) == Lookup(w.buckets[objBucket], n))
      && (forall b :: b in w.buckets && b != objBucket ==> after.0[b] == w.buckets[b])
      && after.1 == writes + [Put(objBucket, k1, None), Put(objBucket, k2, None)]
  {
    SucceededTwoUploads(w, Plan(objBucket, garmentBucket, objKey, garmentKey, gender, quality, color), 5, 6, writes);
  }

  /** The script, run as `python3 fetch_try_on.py` with `argv` as its
      `sys.argv`: seven arguments are required. */
  method FetchTryOnRun(store: ObjectStore, argv: seq<string>, failingTools: set<seq<string>>,
                       outputs: map<string, Bytes>, cleanupFails: bool)
    returns (exit: Exit, trace: seq<Step>)
    modifies store`buckets, store`writes
    ensures |argv| < 8 ==>
      && exit == ExitOne && trace == []
      && store.buckets == old(store.buckets) && store.writes == old(store.writes)
    ensures |argv| >= 8 ==>
      var w := World(store.faults, store.keyFaults, old(store.buckets), failingTools, outputs, cleanupFails);
      var plan := Plan(argv[1], argv[2], argv[3], argv[4], argv[5], argv[6], argv[7]);
      && trace == Attempted(w, plan)
      && (exit == Completed <==> Succeeds(w, plan))
      && (exit != Completed ==> exit == ExitOne)
      && (store.buckets, store.writes) == Apply(w, trace, old(store.buckets), old(store.writes))
  {
    if |argv| < 8 {
      return ExitOne, [];
    }
    var objBucket, garmentBucket, objKey, garmentKey := argv[1], argv[2], argv[3], argv[4];
    var gender, quality, color := argv[5], argv[6], argv[7];
    var w := World(store.faults, store.keyFaults, store.buckets, failingTools, outputs, cleanupFails);
    PlanFetchesFirst(objBucket, garmentBucket, objKey, garmentKey, gender, quality, color);
    var ok;
    trace, ok := RunPlan(store, w, Plan(objBucket, garmentBucket, objKey, garmentKey, gender, quality, color));
    exit := if ok then Completed else ExitOne;
  }
}
