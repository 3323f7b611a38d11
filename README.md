# VirtualFit core, modelled in Dafny

VirtualFit turns a photo into a 3D body model and then fits garments to it.
A Flask API stores uploads in a MinIO object store. For each request it
runs the processing stages in Docker containers:

- **prediction** (hp3d): photo to mesh;
- **smoothing** (blender): mesh to smoothed mesh;
- **preview rendering** (blender): one picture per garment;
- **garment fitting** (blender): garment onto the body mesh.

Every stage container runs a small helper script. The script fetches its
inputs from the store, runs a tool, uploads the result under a key and
cleans up. The key one side writes must be the key the other side reads.

The project models these parts:

- **The request validators** (`Validation`). Each validator accepts a form
  value or an uploaded file only against fixed values or what the store
  lists.
- **The route handlers** (`Routes`). Each handler runs its checks in a fixed
  order, calls the stages, and answers with a status and a JSON body or a
  file. An uncaught exception becomes Flask's 500 answer (`Crash`). So does
  a `jsonify` of a set literal or of an exception.
- **The stage runners**:
  - `Generate3dModel`: the body-model runners;
  - `SimulateCloth`: the try-on runner;
  - `PreviewImages`: the preview runner.

  They are methods over a fake Docker daemon (`Docker.Daemon`). Every call
  to the daemon is logged, and a fault can be set at any log position. Each
  runner is proved to run the same calls as the source and to reach the
  same except clause. The preview runner removes only the volumes its run
  created. The try-on runner removes the volumes its container mounted.
  Neither removes the persistent `virtualfit_minio-data` volume.
- **The four helper scripts** (`FetchAndPredict`, `FetchShadeSmooth`,
  `FetchTryOn`, `FetchGeneratePreview`). Each is an ordered plan of steps
  over the shared `Scripts` runner: check a bucket, fetch, run a tool,
  upload, clean up. A script stops at the first failing step. Each is
  proved to fetch before it uploads and to store exactly its outputs under
  the keys the handlers read.
- **The start-up code** (`InitData`, `S3Setup`). It seeds the garment bucket
  from the local data directory and creates the two buckets. When the
  garment bucket is created it gets a one-day expiry rule. The rule's filter
  prefix is empty, so the rule covers every object in the bucket. The
  seeding stops at the first file whose stat fails with anything other than
  NoSuchKey, and at the first upload that fails. The files before that file
  stay uploaded, and the files after it are not looked at.
- **The uptime text** of the health endpoint (`Uptime`), with a parser that
  proves the text can be read back.
- **The browser-side form schema** (`Schema`).

`KeyContract` connects the pieces. It proves:

- the mesh key the prediction script writes is the key the handler sends
  to smoothing;
- the smoothed key is the key the handler downloads;
- the preview key the renderer uploads is the key the preview service looks
  for;
- the comma-joined list of missing previews splits back into itself in the
  renderer;
- the fitted-mesh key agrees between script and handler;
- the browser and the server accept the same genders.

The object store is `Storage.ObjectStore`. It holds buckets of named
objects in listing order and logs every write. Faults are set per bucket
and per operation, or per object and per operation.

### The handlers as the repository has them

`api/app/routes.py` does not match the services it calls:

- It imports `generate_model`, `validate_height` and `validate_quality`.
  None of them is defined in the service modules, so as written importing
  the module fails and no route is served. The model describes each handler
  as if those names resolved. The outcomes of the missing functions are
  parameters: `height`, `generated`, `quality`.
- The call of `shape_obj_smooth` (line 88) passes the right number of
  arguments in the wrong order: `(client, s3, bucket, obj_key)` for
  `(obj_file_path, client, volume, volume_bind)`. So `obj_file_path` is the
  Docker client, `os.path.exists` raises TypeError on it, and `except
  Exception` turns that into False. As written, the call always returns
  False, so a request whose model generation succeeds is answered with
  "Failed to shape smooth 3D-Model". The handler model keeps `smoothed` as
  a parameter so that its later branches are described too.
- `generate_presigned_urls` is called with one argument (lines 131 and 164)
  but takes two.
- `simulate_cloth` is called with seven arguments but takes six.
- Because of these mismatches, the handlers take every stage's outcome as a
  parameter. The runners are modelled against their own definitions.
- The model-generation handler bails out on an invalid gender or height
  with `jsonify({"error:" "..."})` (lines 52 and 57). That is a set literal, which Flask cannot
  serialise, so those answers are 500 (`Crash`), not 400.
- For a request without an "obj" file, the read of `files["obj"]` from
  `request.files` in `validate_obj` raises Flask's BadRequestKeyError. The app runs with `debug=True`
  (`api/app/app.py:27`), and in debug mode Flask lets that error escape as
  a 500. Without debug mode Flask answers it with 400.
  `Routes.RefusalStatus` and `Routes.TryOnRefusal` follow the debug setting.
- A listing failure or an `IndexError` in `generate_previews` is answered
  with `jsonify({"error": e})`. That is also a 500.

The helper scripts have mismatches of their own:

- `simulate_cloth` hands the fitting script five arguments. The script's
  usage check demands seven (`len(sys.argv) < 8`), so the script exits 1
  at its usage check (`SimulateCloth.TryOnArgv`).
- The prediction script checks for at least two arguments but reads four.
  With two or three arguments it ends in an uncaught `IndexError`.
- The smoothing and rendering scripts check for at least one argument but
  read two.

In the browser, `MAX_FILE_SIZE` is one mebibyte although its comment and
the error message both say 5MB (`Schema.FiveMegabytesRefused`).

## Model

| member | source | states |
|---|---|---|
| Validation.ValidateGender | api/app/services/validation.py:5-11 | the answer is the submitted gender exactly when the form has a "gender" field equal to "male" or "female"; otherwise None |
| Validation.GenderRevalidates | api/app/services/validation.py:5-11 | an accepted gender is accepted again when submitted alone |
| Validation.ValidateImage | api/app/services/validation.py:14-20 | the uploaded "image" is returned exactly when it is present and has a non-empty file name |
| Validation.FirstMatchingObj | api/app/services/validation.py:29-39 | a match is a listed name ending in ".obj" whose stored bytes equal the upload |
| Validation.FirstMatchingObjIsFirst | api/app/services/validation.py:29-39 | the match is at some listing index, and no earlier name is an ".obj" object holding the uploaded bytes |
| Validation.FirstMatchingObjNone | api/app/services/validation.py:29-39 | when fetching works, no match means no listed ".obj" object holds the uploaded bytes |
| Validation.ValidateObj | api/app/services/validation.py:23-41 | a missing "obj" field raises KeyError; an empty file name gives None; otherwise the answer is the first listed ".obj" key whose bytes equal the upload |
| Validation.FemaleSizesServeMale | api/app/services/validation.py:66-91 | because the gender test is a substring test, every size offered for "female" is also offered for "male" |
| Validation.ValidateGarment | api/app/services/validation.py:44-63 | the garment is returned exactly when the bucket can be listed and some listed ".blend" name outside the previews has the garment as its first segment |
| Validation.ValidateSize | api/app/services/validation.py:66-91 | the size is returned exactly when some listed ".blend" name contains the garment and the gender and has a file name whose part before '_' is the size |
| Uptime.Decompose | api/app/services/uptime.py:10-15 | days, hours, minutes and seconds add back up to the count, with each of the last three below its modulus (Python's floor division) |
| Uptime.FormatUptime | api/app/services/uptime.py:1-27 | the text is the space-joined parts, one "{value}{unit}" per positive component |
| Uptime.PartsWellFormed | api/app/services/uptime.py:17-25 | every part is a decimal number followed by one unit letter |
| Uptime.PartsUnits | api/app/services/uptime.py:17-25 | the units run d, h, m, s, each present exactly when its component is positive |
| Uptime.EmptyExactly | api/app/services/uptime.py:17-27 | the text is empty exactly when the count is not positive and a whole number of days |
| Uptime.FormatsZeroAsEmpty | api/app/services/uptime.py:1-27 | zero seconds give the empty text |
| Uptime.SumOfParts | api/app/services/uptime.py:17-25 | for a non-negative count the parts stand for exactly the count |
| Uptime.PartsHaveNoSpace | api/app/services/uptime.py:17-25 | no part holds a space, so the join is unambiguous |
| Uptime.ParseFormatted | api/app/services/uptime.py:1-27 | reading the text back gives the non-negative count it was made from |
| S3Setup.BucketsInOrder | api/app/services/s3.py:6 | the loop visits "data" first, then "clothes" |
| S3Setup.CreateAllBuckets | api/app/services/s3.py:31-42 | after the loop the store holds a bucket exactly when it held it before or the loop created it; existing buckets keep their objects |
| S3Setup.LifecycleOnlyOnNewClothes | api/app/services/s3.py:37 | a lifecycle configuration is set only on "clothes", and only in the pass that creates it |
| S3Setup.StepWrites | api/app/services/s3.py:33-42 | one pass sends requests about its own bucket only |
| S3Setup.VisitsDataThenClothes | api/app/services/s3.py:31-42 | the requests about "data" come before those about "clothes" |
| S3Setup.SecondRunChangesNothing | api/app/services/s3.py:31-42 | a second set-up changes no bucket and no lifecycle |
| S3Setup.SetLifecycle | api/app/services/s3.py:16-28 | the store changes as the lifecycle step says: the rule is recorded unless the request fails, and the error is swallowed |
| S3Setup.CreateBuckets | api/app/services/s3.py:31-42 | the store changes as the two-pass loop says |
| InitData.RelativeKeyIsJoin | api/app/services/init_data.py:8-9 | a nested file's key is its directory and name joined by '/' |
| InitData.UploadedKeepsExisting | api/app/services/init_data.py:11-18 | objects already stored keep their bytes and their place in the fake's listing; nothing is overwritten |
| InitData.UploadedHoldsEveryKey | api/app/services/init_data.py:5-23 | after a run every local file's key is stored |
| InitData.UploadedWhenAllPresent | api/app/services/init_data.py:11-14 | when every key is already stored nothing is uploaded |
| InitData.SecondRunUploadsNothing | api/app/services/init_data.py:5-23 | running the seeding twice stores nothing new and uploads nothing |
| InitData.NoNewKeysNoChange | api/app/services/init_data.py:5-23 | a run that uploads nothing leaves the objects as they were |
| InitData.NewKeysOfPrefix | api/app/services/init_data.py:7-18 | the keys uploaded for a prefix of the files begin the keys uploaded for all of them |
| InitData.UploadedStep | api/app/services/init_data.py:11-18 | one more file is skipped when its key is stored, else appended |
| InitData.FirstNewKey | api/app/services/init_data.py:15-21 | the first missing key after an upload-free prefix is the first key the run uploads |
| InitData.UploadFile | api/app/services/init_data.py:10-21 | one loop pass over file i: a stored key is skipped and a missing one uploaded, both extending the progress; a stat error other than NoSuchKey, or a failed upload, makes i the stopping file, with its return value, the buckets as the earlier files left them and the log with the failed upload |
| InitData.UploadData | api/app/services/init_data.py:5-23 | the run ends at the first stopping file k, or after the last file. It returns False for a stat error other than NoSuchKey, raises a failed upload's error, and otherwise returns None. The bucket holds exactly the uploads of the files before k. The log holds one upload per new key among those files, then the failed upload if any. No file after k is uploaded |
| InitData.SkipStep | api/app/services/init_data.py:11-14 | a key the stat finds stored does not stop the run and changes nothing |
| InitData.UploadStep | api/app/services/init_data.py:15-18 | a missing key whose upload succeeds is stored last, and is logged as one successful request |
| InitData.NewKeysAreFileKeys | api/app/services/init_data.py:7-18 | every uploaded key is the key of one of the walked files and was not stored before |
| InitData.StopFrom | api/app/services/init_data.py:6-21 | the first file at or after i at which the loop ends: no file between stops it, and the one named does |
| InitData.StopIndex | api/app/services/init_data.py:6-21 | the file at which the loop ends: every earlier file was skipped or uploaded, and that file stops it |
| InitData.HealthyRunCompletes | api/app/services/init_data.py:5-23 | with no fault on the bucket or on a file's key, the run handles every file, returns None, and leaves the bucket as the full seeding of all the files |
| InitData.MissingBucketReturnsFalse | api/app/services/init_data.py:15-21 | seeding a missing bucket returns False at the first file and writes nothing |
| InitData.StoppedRunKeepsPrefix | api/app/services/init_data.py:10-21 | wherever the run stops, existing objects keep their bytes and the keys of all earlier files are stored |
| InitData.WritesOnlyReachedFiles | api/app/services/init_data.py:10-21 | every write of a run is an upload to the seeded bucket of a file up to the one at which it stops |
| InitData.StopStep | api/app/services/init_data.py:19-21 | a file that stops the run is the file the stop index names |
| InitData.Advance | api/app/services/init_data.py:6-18 | handling a file without stopping extends the progress by one file |
| Docker.Classify | api/app/services/generate_3d_model.py:29-40 | the except clauses in order: ImageNotFound, NotFound, APIError, and everything else as unexpected |
| Generate3dModel.GuardedRun | api/app/services/generate_3d_model.py:7-40 | an absent input returns False with no daemon call; otherwise one run whose fault decides the outcome by the except order |
| Generate3dModel.GenerateKeypoints | api/app/services/generate_3d_model.py:7-40 | no "{data_folder}/images" means False and no call. Otherwise one attached, auto-removed GPU run of "openpose" with the volume mounted read-write at the bind; True exactly when it raises nothing |
| Generate3dModel.GenerateMesh | api/app/services/generate_3d_model.py:43-81 | the same for "{data_folder}/keypoints" and the mesh container |
| Generate3dModel.ShapeObjSmooth | api/app/services/generate_3d_model.py:84-111 | the same for the mesh file and the smoothing container |
| SimulateCloth.TryOnCommandWords | api/app/services/simulate_cloth.py:15 | the command splits into the interpreter, the script and the five arguments |
| SimulateCloth.TryOnArgv | api/app/services/simulate_cloth.py:15 | the script receives its name and five arguments, fewer than the eight entries its usage check demands |
| SimulateCloth.VolumeMountNamesMembers | api/app/services/simulate_cloth.py:36-38 | a name is collected exactly when some mount of type "volume" carries it |
| SimulateCloth.CollectVolumeNames | api/app/services/simulate_cloth.py:36-38 | the loop gathers the volume mounts' names in mount order |
| SimulateCloth.RemoveListedVolumes | api/app/services/simulate_cloth.py:38-46 | one removal attempt per collected name other than the persistent volume, in order; only successful removals drop volumes; the persistent volume is never removed |
| SimulateCloth.RunTryOnContainer | api/app/services/simulate_cloth.py:9-34 | run detached, wait, inspect, force-remove; it succeeds exactly when none of the four calls fails, and then answers the inspected mounts |
| SimulateCloth.SimulateClothRun | api/app/services/simulate_cloth.py:5-59 | True exactly when the four container calls raise nothing; a failure is classified by the except order and removes no volume; on success exactly the mounted volumes other than the persistent one are removed |
| PreviewImages.GetFilesByGender | api/app/services/generate_preview_images.py:8-37 | a listing failure is reported; otherwise the blends are exactly the listed "{size}_*.blend" files of the gender and the previews exactly its "previews/*/{gender}.png", both in listing order; a name without the expected segments raises IndexError |
| PreviewImages.MissingMeaning | api/app/services/generate_preview_images.py:40-57 | the missing list keeps listing order, holds exactly the blends whose preview key is not listed, and is empty exactly when every preview exists |
| PreviewImages.FindMissingPreviews | api/app/services/generate_preview_images.py:40-57 | the loop fails with IndexError exactly when some blend has fewer than two segments; otherwise it answers the missing previews as above |
| PreviewImages.PreviewScriptWords | api/app/services/generate_preview_images.py:78-89 | the container command splits into the interpreter, the script, the bucket and the comma-joined missing list |
| PreviewImages.ReclaimVolumes | api/app/services/generate_preview_images.py:105-120 | one removal attempt per new volume other than the persistent one; only those can be removed |
| PreviewImages.RunPreviewContainer | api/app/services/generate_preview_images.py:80-105 | list volumes, run attached, wait, list volumes, force-remove; success exactly when none of the five calls fails |
| PreviewImages.GeneratePreviewImgs | api/app/services/generate_preview_images.py:60-136 | True exactly when the five container calls raise nothing; no pre-existing volume is removed; on success exactly the volumes the run created are reclaimed |
| PreviewImages.GeneratePresignedUrls | api/app/services/generate_preview_images.py:139-160 | one URL per path |
| PreviewImages.PresignedUrlsRewritten | api/app/services/generate_preview_images.py:156-159 | each signed URL is pointed at "http://minio.localhost" with the same bucket, path and signature |
| FetchAndPredict.PlanFetchesFirst | api/hp3d/fetch_and_predict.py:29-92 | no fetch comes after an upload |
| FetchAndPredict.ImagePathShape | api/hp3d/fetch_and_predict.py:49 | the photo lands in "/data/images/" under its own name |
| FetchAndPredict.OutputPathShape | api/hp3d/fetch_and_predict.py:81-84 | the mesh is expected as "/data/output/{stem}.obj" |
| FetchAndPredict.UploadKeyShape | api/hp3d/fetch_and_predict.py:85 | the mesh is uploaded as "{first segment}/model.obj" |
| FetchAndPredict.InvalidGenderStopsEarly | api/hp3d/fetch_and_predict.py:43-45 | a gender other than "male" or "female" stops the script before the download, and nothing is written |
| FetchAndPredict.CompletedRunStoresMesh | api/hp3d/fetch_and_predict.py:87-92 | a completed run stores the predicted mesh under the upload key and changes nothing else |
| FetchAndPredict.FetchAndPredictRun | api/hp3d/fetch_and_predict.py:8-100 | fewer than three argv entries exit 1; three or four end in IndexError with nothing done; otherwise the steps are attempted until one fails, and the store changes exactly as those steps say |
| FetchShadeSmooth.PlanFetchesFirst | api/blender/minio_helpers/fetch_shade_smooth.py:31-80 | no fetch comes after an upload |
| FetchShadeSmooth.LocalObjPathShape | api/blender/minio_helpers/fetch_shade_smooth.py:43 | a key "{dir}/{file}" is fetched to "/data/{file}" |
| FetchShadeSmooth.SmoothOfLocal | api/blender/minio_helpers/fetch_shade_smooth.py:74 | "/data/{name}.obj" becomes "/data/{name}_smooth.obj" |
| FetchShadeSmooth.SmoothPaths | api/blender/minio_helpers/fetch_shade_smooth.py:73-74 | for "{dir}/{name}.obj" the result is read from "/data/{name}_smooth.obj" and uploaded as "{dir}/{name}_smooth.obj" |
| FetchShadeSmooth.ModelSmoothKey | api/blender/minio_helpers/fetch_shade_smooth.py:73-74 | the body model "{folder}/model.obj" is smoothed to "{folder}/model_smooth.obj" |
| FetchShadeSmooth.CompletedRunStoresSmooth | api/blender/minio_helpers/fetch_shade_smooth.py:75-80 | a completed run stores the smoothed mesh under the upload key and changes nothing else |
| FetchShadeSmooth.MissingMeshUploadsNothing | api/blender/minio_helpers/fetch_shade_smooth.py:46-51 | a mesh that cannot be fetched stops the script before the tool runs, and nothing is written |
| FetchShadeSmooth.FetchShadeSmoothRun | api/blender/minio_helpers/fetch_shade_smooth.py:8-88 | one argv entry exits 1; two end in IndexError; otherwise the steps are attempted until one fails, and the store changes exactly as those steps say |
| FetchTryOn.PlanFetchesFirst | api/blender/minio_helpers/fetch_try_on.py:33-110 | no fetch comes after an upload |
| FetchTryOn.FileNameShape | api/blender/minio_helpers/fetch_try_on.py:67 | a garment "{dir}/{name}.blend" is written out as "{name}.obj" |
| FetchTryOn.LocalOutputs | api/blender/minio_helpers/fetch_try_on.py:68-105 | the tool writes "/data/{name}.obj", and the material file is read from "/data/{name}.mtl" |
| FetchTryOn.ObjUploadKeyShape | api/blender/minio_helpers/fetch_try_on.py:100 | the fitted mesh is uploaded as "{folder}/{name}.obj" |
| FetchTryOn.MtlUploadKeyShape | api/blender/minio_helpers/fetch_try_on.py:101 | the material file is uploaded as "{folder}/{name}.mtl" |
| FetchTryOn.BodyBucketCheckedFirst | api/blender/minio_helpers/fetch_try_on.py:33-41 | a missing body bucket ends the script at its first step; the garment bucket is not checked |
| FetchTryOn.CompletedRunStoresFit | api/blender/minio_helpers/fetch_try_on.py:102-110 | a completed run stores the fitted mesh and the material file in the body bucket, in that order, and changes nothing else |
| FetchTryOn.FetchTryOnRun | api/blender/minio_helpers/fetch_try_on.py:8-118 | fewer than eight argv entries exit 1 with nothing done; otherwise the steps are attempted until one fails, and the store changes exactly as those steps say |
| FetchGeneratePreview.FetchSteps | api/blender/minio_helpers/fetch_generate_preview.py:45-62 | one download per wanted name, to the same path under the data directory |
| FetchGeneratePreview.RenderStopsAtMalformed | api/blender/minio_helpers/fetch_generate_preview.py:65-109 | the walk ends in IndexError exactly when it meets a ".blend" path with fewer than two segments |
| FetchGeneratePreview.RenderStepsKinds | api/blender/minio_helpers/fetch_generate_preview.py:78-109 | the walk only renders and uploads |
| FetchGeneratePreview.RenderUploadsPreviews | api/blender/minio_helpers/fetch_generate_preview.py:101-104 | every upload is the preview of some walked blend file |
| FetchGeneratePreview.RenderStepsCover | api/blender/minio_helpers/fetch_generate_preview.py:65-109 | when the walk does not stop, every blend file gets its upload |
| FetchGeneratePreview.PlanParts | api/blender/minio_helpers/fetch_generate_preview.py:32-117 | the plan is the bucket checks, then the downloads, then the renders, then the cleanup |
| FetchGeneratePreview.PlanFetchesFirst | api/blender/minio_helpers/fetch_generate_preview.py:45-109 | no fetch comes after an upload |
| FetchGeneratePreview.DownloadsExactly | api/blender/minio_helpers/fetch_generate_preview.py:45-62 | a name is downloaded exactly when it is listed and among the missing paths, in listing order |
| FetchGeneratePreview.OutputFileShape | api/blender/minio_helpers/fetch_generate_preview.py:70-76 | the render goes under "/previews" whatever the blend file's directory, since joining an absolute path discards the root |
| FetchGeneratePreview.PreviewNames | api/blender/minio_helpers/fetch_generate_preview.py:73-101 | "{clothing}/{gender}/{file}" is rendered to "/previews/{clothing}/{gender}.png" and uploaded as "previews/{clothing}/{gender}.png" |
| FetchGeneratePreview.CompletedRunUploadsPreviews | api/blender/minio_helpers/fetch_generate_preview.py:65-117 | a completed walk sends one request per rendered blend file, in walk order, stores a preview under each upload path, and leaves every other object as it was |
| FetchGeneratePreview.FetchGeneratePreviewRun | api/blender/minio_helpers/fetch_generate_preview.py:8-117 | one argv entry exits 1; two end in IndexError; otherwise the steps are attempted until one fails or the walk meets a malformed path, and the store changes exactly as the steps say |
| Scripts.FirstFailure | api/blender/minio_helpers/fetch_try_on.py:33-118 | every step before the index succeeds, and the step at the index fails |
| Scripts.Attempted | api/blender/minio_helpers/fetch_try_on.py:33-118 | the attempted steps are a prefix of the plan that only its last step can fail; the whole plan exactly when the run succeeds |
| Scripts.AttemptedReaches | api/blender/minio_helpers/fetch_try_on.py:33-118 | a step is reached exactly when every earlier step succeeds |
| Scripts.ApplyKeepsBucketNames | api/blender/minio_helpers/fetch_try_on.py:102-110 | no step creates or deletes a bucket |
| Scripts.ApplyWithoutUploads | api/blender/minio_helpers/fetch_try_on.py:33-97 | steps without an upload write nothing |
| Scripts.SucceededUpload | api/hp3d/fetch_and_predict.py:87-92 | a successful plan with one upload stores its file under its key and changes nothing else |
| Scripts.SucceededTwoUploads | api/blender/minio_helpers/fetch_try_on.py:102-110 | a successful plan with two uploads into one bucket stores both files, the second winning on equal keys, and changes nothing else |
| Scripts.SucceededWrites | api/blender/minio_helpers/fetch_generate_preview.py:101-109 | successful steps send one request per upload, in order, and store something exactly under the uploaded keys |
| Scripts.FetchesBefore | api/blender/minio_helpers/fetch_try_on.py:47-110 | a plan whose fetches all come before its uploads fetches first |
| Scripts.Perform | api/blender/minio_helpers/fetch_try_on.py:33-118 | one step against the store succeeds as the step model says and changes the store as it says |
| Scripts.RunPlan | api/blender/minio_helpers/fetch_try_on.py:33-118 | the run attempts the plan up to its first failure, succeeds exactly when the whole plan does, and changes the store as the attempted steps say |
| Routes.ImageKeyInFolder | api/app/routes.py:65-68 | the photo key lies in the request's folder under the name "image" with the photo's extension |
| Routes.SmoothObjKeyShape | api/app/routes.py:92-93 | the smoothed mesh is read from "{folder_id}/model_smooth.obj" |
| Routes.TShirtUpperCase | api/app/routes.py:207-208 | "t-shirt" is looked up as "T-Shirt" |
| Routes.UpperCaseHasNoSlash | api/app/routes.py:207-208 | the case rewrite brings in no '/' |
| Routes.ThreeSegments | api/app/routes.py:207-208 | a key of three plain segments splits into them, and its base name is the last |
| Routes.GarmentKeyShape | api/app/routes.py:207-208 | the garment key has the garment, the gender and "{size}_{Garment}.blend" as its three segments |
| Routes.FitKeyShape | api/app/routes.py:224-226 | the fitted key is the body mesh's folder and the garment's stem with ".obj" |
| Routes.Index | api/app/routes.py:34-42 | answers 200 with status "running" and an uptime text that reads back to the uptime |
| Routes.Generate3dModel | api/app/routes.py:45-107 | a bad gender or height crashes; a bad image is refused; otherwise the photo is stored under its key, and each failed stage gets its own answer; the smoothed mesh is sent when it can be downloaded |
| Routes.RenderMissing | api/app/routes.py:147-174 | a failed container run answers 500; otherwise the store is re-listed and the new previews' URLs are answered |
| Routes.GeneratePreviews | api/app/routes.py:110-174 | a bad gender is refused; a listing or index error crashes; with nothing missing the existing URLs are answered and no container runs; otherwise the rendered list is exactly the missing blends, and the container's outcome decides the answer |
| Routes.AcceptedMeansValidated | api/app/routes.py:177-200 | passing every check means each validator accepted its value |
| Routes.CheckTryOn | api/app/routes.py:180-200 | the checks run in order (mesh, garment, gender, size) and the first refusal decides |
| Routes.TryOn | api/app/routes.py:177-231 | a refused request gets the first refusal and runs nothing; otherwise the garment key and fitted key are built, a failed simulation answers 500, and the fitted mesh is sent when it can be downloaded |
| Routes.RefusalStatus | api/app/routes.py:180-200 | a refusal is 400 with an error body, or 500 when the "obj" file is missing altogether |
| Schema.IssuesExactly | frontend/src/schemas/index.ts:6-20 | each issue is reported exactly when its check fails |
| Schema.AcceptsExactly | frontend/src/schemas/index.ts:3-20 | the form is accepted exactly when the gender is "male" or "female", the height is in [140, 220], the weight is in [40, 120], and the photo is a JPEG or PNG of at most 1048576 bytes |
| Schema.MissingImageFailsBoth | frontend/src/schemas/index.ts:10-19 | without a photo both photo checks fail |
| Schema.FiveMegabytesRefused | frontend/src/schemas/index.ts:3 | a 5MB photo, the size the message names, is refused |
| KeyContract.PredictedMeshIsSmoothed | api/hp3d/fetch_and_predict.py:85 | the prediction script stores the mesh under the key the handler passes to smoothing |
| KeyContract.SmoothedMeshIsDownloaded | api/blender/minio_helpers/fetch_shade_smooth.py:73 | the smoothing script stores its result under the key the handler downloads |
| KeyContract.PreviewUploadIsLookedUp | api/blender/minio_helpers/fetch_generate_preview.py:101 | each preview is uploaded under the key the preview service looks for: the two programs' formats agree |
| KeyContract.RenderedBlendsNoLongerMissing | api/blender/minio_helpers/fetch_generate_preview.py:73-101 | after a completed rendering run, the preview service finds no rendered blend file lacking its preview in the bucket's listing |
| KeyContract.MissingListRoundTrip | api/app/services/generate_preview_images.py:78-89 | the rendering script receives the bucket and exactly the missing list: the comma join is undone by its comma split |
| KeyContract.FittedMeshIsDownloaded | api/app/routes.py:224-228 | the handler downloads the fitted mesh from the key the fitting script uploads it under |
| KeyContract.GarmentKeyOffersSize | api/app/routes.py:207-208 | the garment key the handler builds offers the submitted size by the test the size validator applies |
| KeyContract.GenderChecksAgree | frontend/src/schemas/index.ts:7 | the form reports no gender issue exactly when the server's gender validator accepts the value |

## Left out

- Logging and printing are left out: they change no state the model tracks.
- Each script is a sequence of top-level statements run once. It is modelled
  by one run method per script, with `argv` as a parameter.
- The bytes the tools produce (meshes, renders, material files) are a map
  from local path to bytes. A missing output file makes its upload step
  fail, which ends the run with exit status 1. In Python the
  `FileNotFoundError` is not caught, which also ends with status 1.
- The GPU device request, the network, the environment and auto-removal
  are recorded in the container spec and not otherwise interpreted.
- Timeouts and container concurrency are not modelled.
- The blender, hp3d, openpose and smplify-x programs the containers run are
  not part of this model. Their effect is taken as a parameter: whether the
  tool fails, and which files it writes.
- `os.walk`'s traversal order and `os.path.relpath` are not modelled. The
  walk's result is a parameter: the relative paths, in walk order.
- `os.makedirs` and `shutil.rmtree` are a cleanup step that succeeds or
  fails by a parameter.
- Presigning (the signature itself) is left out. `GeneratePresignedUrls`
  takes the signed URLs as input and models only the endpoint rewrite.
- Routes.Generate3dModel, Routes.GeneratePreviews, Routes.RenderMissing and
  Routes.TryOn take the outcomes of the stages they start as parameters.
  The stage containers' writes to the store are not replayed inside the
  handler. The listing after rendering is the parameter `updated`. The
  folder id `uuid4()` is a parameter too.
- Flask's request parsing, `send_file` and the response headers are left
  out. A reply is a status and a body.
- `z.coerce.number()` is abstracted: a numeric field is the number coercion
  produced, or None for NaN. The zod error messages are not modelled; each
  issue is a tag.
- Listing order: the fake's buckets list objects in insertion order, and a
  new object is listed last. MinIO lists keys in lexicographic order. So
  the first match `validate_obj` finds, and the order of the blend and
  preview lists, follow the fake's order, not the real store's.
- InitData.UploadData: the fake logs writes, not reads. So the contract
  shows that no file after the stopping file is uploaded, but it cannot
  show that such a file is never passed to `stat_object`.
- Text is `seq<char>`. File names and keys are compared character by
  character, with no Unicode normalisation.
- PreviewImages.GeneratePresignedUrls: its ensures says only that there is
  one URL per path. The rewrite itself is stated by
  `PresignedUrlsRewritten`, for URLs in the shape the store issues.
- Routes.Generate3dModel: the `height` parameter stands for
  `validate_height`, which the validation module does not define. The same
  holds for Routes.TryOn's `quality` and `validate_quality`.
