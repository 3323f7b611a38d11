/** The HTTP handlers of the API. Each handler validates the request in a fixed
    order and answers at the first failed check, then runs its stages one after
    the other and answers at the first that fails. A stage whose call does not
    match the function it names is an outcome given to the handler; the calls
    a handler makes are returned as its `stages`, in order. */
module Routes {
  import opened Wrappers
  import opened PyStr
  import opened Storage
  import opened Docker
  import opened Validation
  import opened PreviewImages
  import opened Uptime

  /** What a handler answers with. */
  datatype Body =
    | Running(status: string, uptime: string)            // {"status": …, "uptime": …}
    | Error(message: string)                             // {"error": message}
    | DownloadError(message: string, code: S3Error)      // {"error": f"{message}: {e}"}
    | Urls(message: string, presignedUrls: seq<string>)  // {"message": …, "presigned_urls": …}
    | Attachment(path: string)                           // send_file(path, as_attachment=True)
    | InternalServerError                                // Flask's own answer to an exception

  datatype Reply = Reply(status: nat, body: Body)

  /** The answer to an exception that escapes the handler. It is also the answer
      where the handler's reply is built with `jsonify` of something JSON cannot
      hold: a set literal, or the caught exception itself. */
  const Crash := Reply(500, InternalServerError)

  /** The calls a handler makes once the request has passed validation. */
  datatype Stage =
    | PutImage(key: string)
    | RunGenerateModel(imageKey: string, gender: string, height: string)
    | RunShapeObjSmooth(objKey: string)
    | FetchObject(key: string)
    | ListFiles(gender: string)
    | RunPreviews(missing: seq<string>)
    | ListPreviews
    | Presign(paths: seq<string>)
    | RunSimulateCloth(objKey: string, garmentKey: string, gender: string, quality: Option<string>)

  // ---------------------------------------------------------------------------
  // Keys and paths

  /** `image_key`: "{folder_id}/image{ext}", the extension taken from the
      uploaded file name. */
  function ImageKey(folderId: string, filename: string): string {
    folderId + "/image" + Ext(filename)
  }

  /** The mesh the smoothing stage is asked to smooth. */
  function ObjKey(folderId: string): string {
    folderId + "/model.obj"
  }

  /** The smoothed mesh the handler downloads. */
  function SmoothObjKey(folderId: string): string {
    PathJoin(folderId, "model_smooth.obj")
  }

  const SmoothObjPath := "/tmp/model_smooth.obj"

  /** `garment.replace("-", " ").title().replace(" ", "-")` */
  function GarmentUpperCase(garment: string): string {
    ReplaceAll(Title(ReplaceAll(garment, "-", " ")), " ", "-")
  }

  /** `garment_key`: "{garment}/{gender}/{size}_{GarmentUpperCase}.blend" */
  function GarmentKey(garment: string, gender: string, size: string): string {
    garment + "/" + gender + "/" + size + "_" + GarmentUpperCase(garment) + ".blend"
  }

  /** The fitted mesh's file name: the garment file's stem with ".obj". */
  function FitFileName(garmentKey: string): string {
    Stem(Basename(garmentKey)) + ".obj"
  }

  /** The fitted mesh's key: beside the body mesh. */
  function FitKey(objKey: string, garmentKey: string): string {
    PathJoin(Dirname(objKey), FitFileName(garmentKey))
  }

  /** Where the fitted mesh is downloaded to, relative to the working directory. */
  function FitPath(garmentKey: string): string {
    PathJoin("tmp", FitFileName(garmentKey))
  }

  /** The image key lies in the request's folder, under the file name "image"
      with the upload's extension. */
  lemma ImageKeyInFolder(folderId: string, filename: string)
    requires folderId != "" && '/' !in folderId
    ensures FirstSegment(ImageKey(folderId, filename), '/') == folderId
    ensures Dirname(ImageKey(folderId, filename)) == folderId
    ensures Basename(ImageKey(folderId, filename)) == "image" + Ext(filename)
  {
    var file := "image" + Ext(filename);
    ExtShape(filename);
    assert '/' !in file by {
      forall k | 0 <= k < |file| ensures file[k] != '/' {
        if k >= 5 { assert file[k] == Ext(filename)[k - 5]; }
      }
    }
    assert ImageKey(folderId, filename) == folderId + ['/'] + file;
    FirstSegmentOf(folderId, file, '/');
    assert folderId[|folderId| - 1] in folderId;
    assert folderId + "/" + file == folderId + ['/'] + file;
    BasenameDirname(folderId, file);
  }

  /** The smoothed mesh is read from "{folder_id}/model_smooth.obj". */
  lemma SmoothObjKeyShape(folderId: string)
    requires folderId != "" && folderId[|folderId| - 1] != '/'
    ensures SmoothObjKey(folderId) == folderId + "/model_smooth.obj"
  {
    PathJoinPlain(folderId, "model_smooth.obj");
  }

  lemma HyphenToSpace()
    ensures ReplaceAll("t-shirt", "-", " ") == "t shirt"
  {
    NotContainsWithout("shirt", "-");
    ReplaceAbsent("shirt", "-", " ");
    ReplaceLeading("-", "shirt", " ");
    assert "t-shirt"[..1] != "-" && "t-shirt"[1..] == "-shirt";
  }

  lemma SpaceToHyphen()
    ensures ReplaceAll("T Shirt", " ", "-") == "T-Shirt"
  {
    NotContainsWithout("Shirt", " ");
    ReplaceAbsent("Shirt", " ", "-");
    ReplaceLeading(" ", "Shirt", "-");
    assert "T Shirt"[..1] != " " && "T Shirt"[1..] == " Shirt";
  }

  /** "t-shirt" is looked up as "T-Shirt". */
  lemma TShirtUpperCase()
    ensures GarmentUpperCase("t-shirt") == "T-Shirt"
  {
    assert Title("t shirt") == "T Shirt";
    HyphenToSpace();
    SpaceToHyphen();
  }

  /** The case rewrite brings in no '/'. */
  lemma UpperCaseHasNoSlash(garment: string)
    requires '/' !in garment
    ensures '/' !in GarmentUpperCase(garment)
  {
    ReplaceKeepsAbsent(garment, "-", " ", '/');
    TitleKeepsAbsent(ReplaceAll(garment, "-", " "), false, '/');
    ReplaceKeepsAbsent(Title(ReplaceAll(garment, "-", " ")), " ", "-", '/');
  }

  lemma BlendFileHasNoSlash(size: string, upper: string)
    requires '/' !in size && '/' !in upper
    ensures '/' !in size + "_" + upper + ".blend"
  {
    var file := size + "_" + upper + ".blend";
    forall k | 0 <= k < |file| ensures file[k] != '/' {
      if k < |size| { assert file[k] == size[k]; }
      else if k == |size| { }
      else if k < |size| + 1 + |upper| { assert file[k] == upper[k - |size| - 1]; }
      else { assert file[k] == ".blend"[k - |size| - 1 - |upper|]; }
    }
  }

  lemma ThreeSplit(a: string, b: string, c: string)
    requires '/' !in a && '/' !in b && '/' !in c
    ensures Split(a + "/" + b + "/" + c, '/') == [a, b, c]
  {
    var bc := b + ['/'] + c;
    SplitNoSeparator(c, '/');
    SplitAtSeparator(b, c, '/');
    assert Split(bc, '/') == [b, c];
    SplitAtSeparator(a, bc, '/');
    assert a + "/" + b + "/" + c == a + ['/'] + bc;
  }

  lemma ThreeBasename(a: string, b: string, c: string)
    requires '/' !in c
    ensures Basename(a + "/" + b + "/" + c) == c
  {
    var ab := a + ['/'] + b;
    var key := ab + ['/'] + c;
    LastIndexAfter(ab, c, '/');
    assert key[|ab| + 1..] == c;
    assert a + "/" + b + "/" + c == key;
  }

  /** A key of three plain segments splits into them, and its base name is the
      last. */
  lemma ThreeSegments(a: string, b: string, c: string)
    requires '/' !in a && '/' !in b && '/' !in c
    ensures Split(a + "/" + b + "/" + c, '/') == [a, b, c]
    ensures Basename(a + "/" + b + "/" + c) == c
  {
    ThreeSplit(a, b, c);
    ThreeBasename(a, b, c);
  }

  /** For a garment, gender and size without '/', the garment key has exactly
      the three segments garment, gender and file name; it is a blend file of
      that size and gender as the preview service recognises them, and its
      preview is "previews/{garment}/{gender}.png". */
  lemma GarmentKeyShape(garment: string, gender: string, size: string)
    requires '/' !in garment && '/' !in gender && '/' !in size
    ensures var key := GarmentKey(garment, gender, size);
      && Split(key, '/') == [garment, gender, size + "_" + GarmentUpperCase(garment) + ".blend"]
      && Basename(key) == size + "_" + GarmentUpperCase(garment) + ".blend"
      && IsBlendFor(key, gender, size)
      && PreviewKey(key) == "previews/" + garment + "/" + gender + ".png"
  {
    var upper := GarmentUpperCase(garment);
    var file := size + "_" + upper + ".blend";
    UpperCaseHasNoSlash(garment);
    BlendFileHasNoSlash(size, upper);
    var key := GarmentKey(garment, gender, size);
    assert key == garment + "/" + gender + "/" + file;
    ThreeSegments(garment, gender, file);
    assert StartsWith(file, size + "_") by {
      assert file[..|size| + 1] == size + "_";
    }
    assert EndsWith(key, ".blend") by {
      assert key[|key| - 6..] == ".blend";
    }
  }

  /** The fitted key is the body mesh's folder and the garment's stem with
      ".obj", for a body key "{folder}/{file}". */
  lemma FitKeyShape(folder: string, file: string, garmentKey: string)
    requires folder != "" && '/' !in folder && '/' !in file
    ensures FitKey(folder + "/" + file, garmentKey) == folder + "/" + FitFileName(garmentKey)
  {
    assert folder[|folder| - 1] in folder;
    BasenameDirname(folder, file);
    var name := FitFileName(garmentKey);
    BasenameHasNoSlash(garmentKey);
    ExtShape(Basename(garmentKey));
    assert name == "" || name[0] != '/' by {
      if Stem(Basename(garmentKey)) != "" {
        assert Basename(garmentKey)[0] == name[0];
        assert Basename(garmentKey)[0] in Basename(garmentKey);
      }
    }
    PathJoinPlain(folder, name);
  }

  // ---------------------------------------------------------------------------
  // GET /

  /** `index()`: the service is running, with its uptime in whole seconds. */
  method Index(uptimeSeconds: int) returns (reply: Reply)
    ensures reply.status == 200 && reply.body.Running? && reply.body.status == "running"
    ensures reply.body.uptime == Join(Parts(uptimeSeconds), ' ')
    ensures uptimeSeconds >= 0 ==> ParseUptime(reply.body.uptime) == Some(uptimeSeconds)
  {
    var uptime := FormatUptime(uptimeSeconds);
    ParseFormatted(if uptimeSeconds >= 0 then uptimeSeconds else 0);
    reply := Reply(200, Running("running", uptime));
  }

  // ---------------------------------------------------------------------------
  // POST /generate-3d-model

  /** Every stage of a request that reaches the download, in order. */
  function ModelStages(folderId: string, imageKey: string, gender: string, height: string): seq<Stage> {
    [PutImage(imageKey), RunGenerateModel(imageKey, gender, height),
     RunShapeObjSmooth(ObjKey(folderId)), FetchObject(SmoothObjKey(folderId))]
  }

  /** `generate_3d_model()` for a request with `form` and `files` and the fresh
      folder id. `height` is what the height validator answers; `generated` and
      `smoothed` are the outcomes of the two stages. */
  method Generate3dModel(store: ObjectStore, bucket: string, form: Form, files: Files, folderId: string,
                         height: Option<string>, generated: bool, smoothed: bool)
    returns (reply: Reply, stages: seq<Stage>)
    modifies store`buckets, store`writes
    ensures ValidateGender(form).None? || height.None? ==>
      reply == Crash && stages == [] && store.buckets == old(store.buckets) && store.writes == old(store.writes)
    ensures ValidateGender(form).Some? && height.Some? && ValidateImage(files).None? ==>
      && reply == Reply(200, Error("Invalid image file provided")) && stages == []
      && store.buckets == old(store.buckets) && store.writes == old(store.writes)
    ensures ValidateGender(form).Some? && height.Some? && ValidateImage(files).Some? ==>
      var key := ImageKey(folderId, files["image"].filename);
      var e := old(store.ObjectError(bucket, key, S3Op.PutObject));
      && stages <= ModelStages(folderId, key, form["gender"], height.value)
      && |stages| >= 1
      && store.writes == old(store.writes) + [Put(bucket, key, e)]
      && store.buckets == (if e.None? then old(store.buckets)[bucket := Upsert(old(store.buckets)[bucket], key, files["image"].content)]
                           else old(store.buckets))
      && (e.Some? ==> reply == Crash && |stages| == 1)
      && (e.None? && !generated ==> reply == Reply(400, Error("Failed to generate 3D-Model")) && |stages| == 2)
      && (e.None? && generated && !smoothed ==>
            reply == Reply(400, Error("Failed to shape smooth 3D-Model")) && |stages| == 3)
      && (e.None? && generated && smoothed ==>
            && |stages| == 4
            && var fetched := store.GetObject(bucket, SmoothObjKey(folderId));
            && reply == if fetched.Failure? then Reply(500, DownloadError("Failed to download smooth obj", fetched.error))
                        else Reply(200, Attachment(SmoothObjPath)))
  {
    var gender := ValidateGender(form);
    if gender.None? {
      return Crash, [];
    }
    if height.None? {
      return Crash, [];
    }
    var imageFile := ValidateImage(files);
    if imageFile.None? {
      return Reply(200, Error("Invalid image file provided")), [];
    }

    var imageKey := ImageKey(folderId, imageFile.value.filename);
    ghost var all := ModelStages(folderId, imageKey, gender.value, height.value);
    var e := store.PutObject(bucket, imageKey, imageFile.value.content);
    stages := [PutImage(imageKey)];
    if e.Some? {
      return Crash, stages;
    }

    stages := stages + [RunGenerateModel(imageKey, gender.value, height.value)];
    if !generated {
      return Reply(400, Error("Failed to generate 3D-Model")), stages;
    }

    var objKey := ObjKey(folderId);
    stages := stages + [RunShapeObjSmooth(objKey)];
    if !smoothed {
      return Reply(400, Error("Failed to shape smooth 3D-Model")), stages;
    }

    var smoothKey := SmoothObjKey(folderId);
    stages := stages + [FetchObject(smoothKey)];
    assert stages == all;
    var fetched := store.GetObject(bucket, smoothKey);
    if fetched.Failure? {
      return Reply(500, DownloadError("Failed to download smooth obj", fetched.error)), stages;
    }
    return Reply(200, Attachment(SmoothObjPath)), stages;
  }

  // ---------------------------------------------------------------------------
  // POST /generate-previews

  /** The blend files of size "L" and the previews of the gender, as the
      handler lists them. */
  function Catalog(store: ObjectStore, bucket: string, gender: string): Result<(seq<string>, seq<string>), ListingError>
    reads store
  {
    GetFilesByGender(store.ListObjects(bucket), gender, "L")
  }

  /** Every blend file has the two segments its preview key is built from. */
  predicate Splittable(blends: seq<string>) {
    forall i :: 0 <= i < |blends| ==> |Split(blends[i], '/')| >= 2
  }

  /** Every blend file already has its preview. */
  predicate AllPreviewed(blends: seq<string>, previews: seq<string>)
    requires Splittable(blends)
  {
    forall i :: 0 <= i < |blends| ==> PreviewKey(blends[i]) in previews
  }

  /** The previews of the gender in a listing, in listing order. */
  function PreviewsIn(listing: seq<StoredObject>, gender: string): seq<string> {
    Filter(Names(listing), n => IsPreviewFor(n, gender))
  }

  /** The part of `generate_previews()` after missing previews were found: run
      the preview container, list the bucket again and presign the previews of
      the gender. */
  method RenderMissing(client: Daemon, bucket: string, gender: string, missing: seq<string>,
                       updated: Result<seq<StoredObject>, S3Error>, urlsAfter: Option<seq<string>>)
    returns (reply: Reply, stages: seq<Stage>)
    requires client.Valid()
    modifies client
    ensures client.Valid()
    ensures !Unfaulted(client.faults, |old(client.log)|, 5) ==>
      reply == Reply(500, Error("Failed to generate previews")) && stages == [RunPreviews(missing)]
    ensures Unfaulted(client.faults, |old(client.log)|, 5) && updated.Failure? ==>
      reply == Crash && stages == [RunPreviews(missing), ListPreviews]
    ensures Unfaulted(client.faults, |old(client.log)|, 5) && updated.Success? ==>
      && stages == [RunPreviews(missing), ListPreviews, Presign(PreviewsIn(updated.value, gender))]
      && reply == if urlsAfter.None? then Crash else Reply(200, Urls("Previews generated successfully", urlsAfter.value))
  {
    stages := [RunPreviews(missing)];
    var ok, _ := GeneratePreviewImgs(client, bucket, missing);
    if !ok {
      return Reply(500, Error("Failed to generate previews")), stages;
    }
    stages := stages + [ListPreviews];
    if updated.Failure? {
      return Crash, stages;
    }
    stages := stages + [Presign(PreviewsIn(updated.value, gender))];
    if urlsAfter.None? {
      return Crash, stages;
    }
    return Reply(200, Urls("Previews generated successfully", urlsAfter.value)), stages;
  }

  /** `generate_previews()`. `updated` is what listing the bucket answers once
      the container has run; `urlsNow` and `urlsAfter` are the outcomes of the
      two presigning calls, None when the call raises. */
  method GeneratePreviews(store: ObjectStore, client: Daemon, bucket: string, form: Form,
                          updated: Result<seq<StoredObject>, S3Error>,
                          urlsNow: Option<seq<string>>, urlsAfter: Option<seq<string>>)
    returns (reply: Reply, stages: seq<Stage>)
    requires client.Valid()
    modifies client
    ensures client.Valid()
    ensures ValidateGender(form).None? ==>
      reply == Reply(400, Error("Invalid gender provided")) && stages == [] && client.log == old(client.log)
    ensures ValidateGender(form).Some? ==>
      var catalog := Catalog(store, bucket, form["gender"]);
      && |stages| >= 1 && stages[0] == ListFiles(form["gender"])
      && (catalog.Failure? || !Splittable(catalog.value.0) ==>
            reply == Crash && |stages| == 1 && client.log == old(client.log))
      && (catalog.Success? && Splittable(catalog.value.0) && AllPreviewed(catalog.value.0, catalog.value.1) ==>
            && stages == [ListFiles(form["gender"]), Presign(catalog.value.1)]
            && client.log == old(client.log)
            && reply == if urlsNow.None? then Crash else Reply(200, Urls("All previews are up-to-date", urlsNow.value)))
    ensures ValidateGender(form).Some? ==>
      var catalog := Catalog(store, bucket, form["gender"]);
      catalog.Success? && Splittable(catalog.value.0) && !AllPreviewed(catalog.value.0, catalog.value.1) ==>
        && |stages| >= 2 && stages[1].RunPreviews?
        && var missing := stages[1].missing;
        && missing != [] && IsSubsequence(missing, catalog.value.0)
        && (forall b :: b in missing <==> b in catalog.value.0 && PreviewKey(b) !in catalog.value.1)
        && (!Unfaulted(client.faults, |old(client.log)|, 5) ==>
              reply == Reply(500, Error("Failed to generate previews")) && |stages| == 2)
        && (Unfaulted(client.faults, |old(client.log)|, 5) && updated.Failure? ==>
              reply == Crash && stages[1..] == [RunPreviews(missing), ListPreviews])
        && (Unfaulted(client.faults, |old(client.log)|, 5) && updated.Success? ==>
              && stages[1..] == [RunPreviews(missing), ListPreviews, Presign(PreviewsIn(updated.value, form["gender"]))]
              && reply == if urlsAfter.None? then Crash
                          else Reply(200, Urls("Previews generated successfully", urlsAfter.value)))
  {
    var gender := ValidateGender(form);
    if gender.None? {
      return Reply(400, Error("Invalid gender provided")), [];
    }

    var files := GetFilesByGender(store.ListObjects(bucket), gender.value, "L");
    if files.Failure? {
      return Crash, [ListFiles(gender.value)];
    }
    var blendFiles, previewFiles := files.value.0, files.value.1;
    var missing := FindMissingPreviews(blendFiles, previewFiles);
    if missing.Failure? {
      return Crash, [ListFiles(gender.value)];
    }

    if missing.value == [] {
      stages := [ListFiles(gender.value), Presign(previewFiles)];
      if urlsNow.None? {
        return Crash, stages;
      }
      return Reply(200, Urls("All previews are up-to-date", urlsNow.value)), stages;
    }

    assert Splittable(blendFiles) && !AllPreviewed(blendFiles, previewFiles);
    var rest;
    reply, rest := RenderMissing(client, bucket, gender.value, missing.value, updated, urlsAfter);
    stages := [ListFiles(gender.value)] + rest;
    assert stages[1..] == rest;
  }

  // ---------------------------------------------------------------------------
  // POST /try-on

  /** The answer to a try-on request that fails a check: the body mesh, the
      garment, the gender and the size are checked in that order, and the
      first failure decides. None when every check passes. A request without
      an "obj" file raises KeyError, which nothing catches. */
  function TryOnRefusal(store: ObjectStore, objBucket: string, garmentBucket: string, form: Form, files: Files)
    : Option<Reply>
    reads store
  {
    if "obj" !in files then Some(Crash)
    else if SubmittedObj(files, store, objBucket).None? then Some(Reply(400, Error("Invalid obj file provided")))
    else if !("garment" in form && GarmentOffered(store, garmentBucket, form["garment"])) then
      Some(Reply(400, Error("Invalid garment provided")))
    else if ValidateGender(form).None? then Some(Reply(400, Error("Invalid gender provided")))
    else if !("size" in form && SizeOffered(store, garmentBucket, form["garment"], form["gender"], form["size"])) then
      Some(Reply(400, Error("Invalid size provided")))
    else None
  }

  /** Every check of the try-on request passes. */
  predicate TryOnAccepted(store: ObjectStore, objBucket: string, garmentBucket: string, form: Form, files: Files)
    reads store
  {
    TryOnRefusal(store, objBucket, garmentBucket, form, files).None?
  }

  /** Passing every check means each validator accepted its value. */
  lemma AcceptedMeansValidated(store: ObjectStore, objBucket: string, garmentBucket: string, form: Form, files: Files)
    requires TryOnAccepted(store, objBucket, garmentBucket, form, files)
    ensures "obj" in files && SubmittedObj(files, store, objBucket).Some?
    ensures "garment" in form && GarmentOffered(store, garmentBucket, form["garment"])
    ensures "gender" in form && (form["gender"] == "male" || form["gender"] == "female")
    ensures "size" in form && SizeOffered(store, garmentBucket, form["garment"], form["gender"], form["size"])
  {
  }

  /** The validation part of `try_on()`: the first refusal, or the body mesh's
      key when every check passes. */
  method CheckTryOn(store: ObjectStore, objBucket: string, garmentBucket: string, form: Form, files: Files)
    returns (refusal: Option<Reply>, objKey: string)
    ensures refusal == TryOnRefusal(store, objBucket, garmentBucket, form, files)
    ensures refusal.None? ==> objKey == SubmittedObj(files, store, objBucket).value
  {
    objKey := "";
    var validated := ValidateObj(files, store, objBucket);
    if validated.Failure? {
      return Some(Crash), objKey;
    }
    if validated.value.None? {
      return Some(Reply(400, Error("Invalid obj file provided"))), objKey;
    }
    objKey := validated.value.value;
    var garment := ValidateGarment(form, store, garmentBucket);
    if garment.None? {
      return Some(Reply(400, Error("Invalid garment provided"))), objKey;
    }
    var gender := ValidateGender(form);
    if gender.None? {
      return Some(Reply(400, Error("Invalid gender provided"))), objKey;
    }
    var size := ValidateSize(form, store, garmentBucket, garment.value, gender.value);
    if size.None? {
      return Some(Reply(400, Error("Invalid size provided"))), objKey;
    }
    refusal := None;
  }

  /** `try_on()`. `quality` is what the quality validator answers and
      `simulated` is the outcome of the simulation stage. A missing quality
      refuses nothing: it is only handed on. */
  method TryOn(store: ObjectStore, objBucket: string, garmentBucket: string, form: Form, files: Files,
               quality: Option<string>, simulated: bool)
    returns (reply: Reply, stages: seq<Stage>)
    ensures !TryOnAccepted(store, objBucket, garmentBucket, form, files) ==>
      reply == TryOnRefusal(store, objBucket, garmentBucket, form, files).value && stages == []
    ensures TryOnAccepted(store, objBucket, garmentBucket, form, files) ==>
      var objKey := SubmittedObj(files, store, objBucket).value;
      var garmentKey := GarmentKey(form["garment"], form["gender"], form["size"]);
      var fitKey := FitKey(objKey, garmentKey);
      && (!simulated ==>
            reply == Reply(500, Error("Failed to simulate cloth"))
            && stages == [RunSimulateCloth(objKey, garmentKey, form["gender"], quality)])
      && (simulated ==>
            && stages == [RunSimulateCloth(objKey, garmentKey, form["gender"], quality), FetchObject(fitKey)]
            && reply == if store.GetObject(objBucket, fitKey).Failure? then Crash
                        else Reply(200, Attachment(FitPath(garmentKey))))
  {
    var refusal, objKey := CheckTryOn(store, objBucket, garmentBucket, form, files);
    if refusal.Some? {
      return refusal.value, [];
    }
    var garment, gender, size := form["garment"], form["gender"], form["size"];
    var garmentKey := GarmentKey(garment, gender, size);
    stages := [RunSimulateCloth(objKey, garmentKey, gender, quality)];
    if !simulated {
      return Reply(500, Error("Failed to simulate cloth")), stages;
    }

    var fitObjKey := FitKey(objKey, garmentKey);
    stages := stages + [FetchObject(fitObjKey)];
    var fetched := store.GetObject(objBucket, fitObjKey);
    if fetched.Failure? {
      return Crash, stages;
    }
    return Reply(200, Attachment(FitPath(garmentKey))), stages;
  }

  /** A refused try-on request is answered with 400, or with 500 when the
      "obj" file is missing altogether. */
  lemma RefusalStatus(store: ObjectStore, objBucket: string, garmentBucket: string, form: Form, files: Files)
    requires !TryOnAccepted(store, objBucket, garmentBucket, form, files)
    ensures var r := TryOnRefusal(store, objBucket, garmentBucket, form, files).value;
      (r.status == 500 <==> "obj" !in files) && (r.status != 500 ==> r.status == 400 && r.body.Error?)
  {
  }
}
