/** The body-model prediction script run inside the hp3d container: fetch the
    uploaded photo, run the predictor on it, and upload the mesh it writes as
    `{folder}/model.obj`. */
module FetchAndPredict {
  import opened Wrappers
  import opened PyStr
  import opened Storage
  import opened Scripts

  const ImageDir := "/data/images"
  const SaveDir := "/data/output"

  /** Where the photo is downloaded to. */
  function ImagePath(imageKey: string): string {
    PathJoin(ImageDir, Basename(imageKey))
  }

  /** Where the predictor writes the mesh: the photo's stem with ".obj". */
  function OutputPath(imageKey: string): string {
    PathJoin(SaveDir, Stem(Basename(imageKey)) + ".obj")
  }

  /** The key the mesh is uploaded under. */
  function UploadKey(imageKey: string): string {
    PathJoin(FirstSegment(imageKey, '/'), "model.obj")
  }

  function PredictArgv(gender: string, height: string): seq<string> {
    ["python3", "run_predict.py",
     "--gender", gender,
     "--pose_shape_weights", "model_files/poseMF_shapeGaussian_net_weights_" + gender + ".tar",
     "--image_dir", ImageDir,
     "--save_dir", SaveDir,
     "--height", height,
     "--export_obj"]
  }

  /** The steps of the script in the order it runs them. */
  function Plan(bucket: string, imageKey: string, gender: string, height: string): seq<Step> {
    [ CheckBucket(bucket),
      CheckGender(gender),
      Fetch(bucket, imageKey, ImagePath(imageKey)),
      RunTool(PredictArgv(gender, height)),
      Upload(bucket, UploadKey(imageKey), OutputPath(imageKey)),
      Cleanup([ImageDir, SaveDir]) ]
  }

  lemma PlanFetchesFirst(bucket: string, imageKey: string, gender: string, height: string)
    ensures FetchesFirst(Plan(bucket, imageKey, gender, height))
  {
    FetchesBefore(Plan(bucket, imageKey, gender, height), 3);
  }

  /** The photo lands in the image directory under its own name. */
  lemma ImagePathShape(imageKey: string)
    ensures ImagePath(imageKey) == "/data/images/" + Basename(imageKey)
  {
    BasenameHasNoSlash(imageKey);
    assert !StartsWith(Basename(imageKey), "/") by {
      if |Basename(imageKey)| > 0 {
        assert Basename(imageKey)[0] in Basename(imageKey);
      }
    }
  }

  /** The mesh is expected in the output directory as `{stem}.obj`. */
  lemma OutputPathShape(imageKey: string)
    ensures OutputPath(imageKey) == "/data/output/" + Stem(Basename(imageKey)) + ".obj"
  {
    var name := Stem(Basename(imageKey)) + ".obj";
    BasenameHasNoSlash(imageKey);
    ExtShape(Basename(imageKey));
    assert !StartsWith(name, "/") by {
      if Stem(Basename(imageKey)) != "" {
        assert Basename(imageKey)[0] == name[0];
      } else {
        assert name[0] == '.';
      }
    }
  }

  /** The upload key is the key's first segment, a slash, and "model.obj". */
  lemma UploadKeyShape(imageKey: string)
    requires FirstSegment(imageKey, '/') != ""
    ensures UploadKey(imageKey) == FirstSegment(imageKey, '/') + "/model.obj"
  {
    var folder := FirstSegment(imageKey, '/');
    FirstSegmentHasNoSeparator(imageKey, '/');
    assert folder[|folder| - 1] in folder;
    assert "model.obj"[0] == 'm';
    PathJoinPlain(folder, "model.obj");
    assert folder + "/" + "model.obj" == folder + "/model.obj";
  }

  /** A gender other than "male" or "female" stops the script right after the
      bucket check: nothing is downloaded, predicted or uploaded. */
  lemma InvalidGenderStopsEarly(w: World, bucket: string, imageKey: string, gender: string, height: string)
    requires gender != "male" && gender != "female"
    ensures var ran := Attempted(w, Plan(bucket, imageKey, gender, height));
      |ran| <= 2 && forall i :: 0 <= i < |ran| ==> !ran[i].Fetch? && !ran[i].Upload? && !ran[i].RunTool?
  {
    var plan := Plan(bucket, imageKey, gender, height);
    AttemptedReaches(w, plan, 2);
    assert !StepOk(w, plan[1]);
  }

  /** A run that completes stores the predicted mesh under the upload key, with
      one upload request and no other write. */
  lemma CompletedRunStoresMesh(w: World, bucket: string, imageKey: string, gender: string, height: string,
                               writes: seq<Write>)
    requires Succeeds(w, Plan(bucket, imageKey, gender, height))
    ensures var after := Apply(w, Plan(bucket, imageKey, gender, height), w.buckets, writes);
      && OutputPath(imageKey) in w.outputs
      && bucket in after.0
      && Lookup(after.0[bucket], UploadKey(imageKey)) == Some(w.outputs[OutputPath(imageKey)])
      && (forall n :: n != UploadKey(imageKey) ==> Lookup(after.0[bucket], n) == Lookup(w.buckets[bucket], n))
      && after.1 == writes + [Put(bucket, UploadKey(imageKey), None)]
  {
    SucceededUpload(w, Plan(bucket, imageKey, gender, height), 4, writes);
  }

  /** The script, run as `python3 fetch_and_predict.py` with `argv` as its
      `sys.argv`. The usage check demands three entries, but four are read. */
  method FetchAndPredictRun(store: ObjectStore, argv: seq<string>, failingTools: set<seq<string>>,
                            outputs: map<string, Bytes>, cleanupFails: bool)
    returns (exit: Exit, trace: seq<Step>)
    modifies store`buckets, store`writes
    ensures |argv| < 5 ==> trace == [] && store.buckets == old(store.buckets) && store.writes == old(store.writes)
    ensures |argv| < 3 ==> exit == ExitOne
    ensures 3 <= |argv| < 5 ==> exit == Uncaught("IndexError")
    ensures |argv| >= 5 ==>
      var w := World(store.faults, store.keyFaults, old(store.buckets), failingTools, outputs, cleanupFails);
      var plan := Plan(argv[1], argv[2], argv[3], argv[4]);
      && trace == Attempted(w, plan)
      && (exit == Completed <==> Succeeds(w, plan))
      && (exit != Completed ==> exit == ExitOne)
      && (store.buckets, store.writes) == Apply(w, trace, old(store.buckets), old(store.writes))
  {
    if |argv| < 3 {
      return ExitOne, [];
    }
    if |argv| < 5 {
      return Uncaught("IndexError"), [];
    }
    var bucketName, imageKey, gender, height := argv[1], argv[2], argv[3], argv[4];
    var w := World(store.faults, store.keyFaults, store.buckets, failingTools, outputs, cleanupFails);
    PlanFetchesFirst(bucketName, imageKey, gender, height);
    var ok;
    trace, ok := RunPlan(store, w, Plan(bucketName, imageKey, gender, height));
    exit := if ok then Completed else ExitOne;
  }
}
