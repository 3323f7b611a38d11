/** The agreements between the stages: the keys a script writes are the keys
    the handler or the next script reads, and what one side encodes the other
    decodes. Each lemma connects definitions that live in different files. */
module KeyContract {
  import opened Wrappers
  import opened PyStr
  import opened Validation
  import opened PreviewImages
  import SimulateCloth
  import FetchAndPredict
  import FetchShadeSmooth
  import FetchTryOn
  import FetchGeneratePreview
  import Routes
  import Schema
  import Scripts
  import Storage

  /** The prediction script, given the image key the handler uploads, stores the
      mesh under the key the handler then asks to be smoothed. */
  lemma PredictedMeshIsSmoothed(folderId: string, filename: string)
    requires folderId != "" && '/' !in folderId
    ensures FetchAndPredict.UploadKey(Routes.ImageKey(folderId, filename)) == Routes.ObjKey(folderId)
  {
    Routes.ImageKeyInFolder(folderId, filename);
    FetchAndPredict.UploadKeyShape(Routes.ImageKey(folderId, filename));
  }

  /** The smoothing script, given that mesh key, stores the smoothed mesh under
      the key the handler downloads. */
  lemma SmoothedMeshIsDownloaded(folderId: string)
    requires folderId != "" && '/' !in folderId
    ensures FetchShadeSmooth.SmoothUploadKey(Routes.ObjKey(folderId)) == Routes.SmoothObjKey(folderId)
  {
    assert folderId[|folderId| - 1] in folderId;
    FetchShadeSmooth.ModelSmoothKey(folderId);
    Routes.SmoothObjKeyShape(folderId);
  }

  /** The rendering script uploads each preview under the key the preview
      service looks for. The two programs build the key each by its own
      format string; this lemma pins the two formats together. */
  lemma PreviewUploadIsLookedUp(rel: string)
    requires |Split(rel, '/')| >= 2
    ensures FetchGeneratePreview.UploadPath(rel) == PreviewKey(rel)
  {
  }

  /** Once a rendering run has completed, the preview service no longer finds
      any rendered blend file lacking its preview in the bucket's listing. */
  lemma RenderedBlendsNoLongerMissing(w: Scripts.World, bucket: string, missing: seq<string>, walked: seq<string>,
                                      writes: seq<Storage.Write>)
    requires Scripts.Succeeds(w, FetchGeneratePreview.Plan(w, bucket, missing, walked).0)
    requires !FetchGeneratePreview.Plan(w, bucket, missing, walked).1
    ensures var after := Scripts.Apply(w, FetchGeneratePreview.Plan(w, bucket, missing, walked).0, w.buckets, writes);
      && bucket in after.0
      && forall j :: 0 <= j < |walked| && FetchGeneratePreview.IsBlend(walked[j]) ==>
           !LacksPreview(walked[j], Storage.Names(after.0[bucket]))
  {
    var after := Scripts.Apply(w, FetchGeneratePreview.Plan(w, bucket, missing, walked).0, w.buckets, writes);
    FetchGeneratePreview.CompletedRunUploadsPreviews(w, bucket, missing, walked, writes);
    forall j | 0 <= j < |walked| && FetchGeneratePreview.IsBlend(walked[j])
      ensures !LacksPreview(walked[j], Storage.Names(after.0[bucket]))
    {
      PreviewUploadIsLookedUp(walked[j]);
    }
  }

  /** The rendering script receives the bucket and exactly the missing blend
      files the preview service found: the comma join of the service is undone
      by the script's comma split, provided no name holds a comma or a space
      and the list is not empty. */
  lemma MissingListRoundTrip(bucket: string, missing: seq<string>)
    requires missing != [] && ' ' !in bucket
    requires forall i :: 0 <= i < |missing| ==> ',' !in missing[i] && ' ' !in missing[i]
    ensures var argv := SimulateCloth.ScriptArgv(PreviewScriptLine(bucket, missing));
      && argv == ["./minio_helpers/fetch_generate_preview.py", bucket, Join(missing, ',')]
      && Split(argv[2], ',') == missing
  {
    PreviewScriptWords(bucket, missing);
    SplitJoin(missing, ',');
  }

  /** The try-on handler downloads the fitted mesh from the key the fitting
      script uploads it under, for a body mesh key "{folder}/{file}". */
  lemma FittedMeshIsDownloaded(folder: string, file: string, garmentKey: string)
    requires folder != "" && '/' !in folder && '/' !in file
    ensures Routes.FitKey(folder + "/" + file, garmentKey) == FetchTryOn.ObjUploadKey(folder + "/" + file, garmentKey)
  {
    Routes.FitKeyShape(folder, file, garmentKey);
    FirstSegmentOf(folder, file, '/');
    assert folder + "/" + file == folder + ['/'] + file;
    var name := FetchTryOn.FileName(garmentKey);
    assert name == Routes.FitFileName(garmentKey);
    BasenameHasNoSlash(garmentKey);
    ExtShape(Basename(garmentKey));
    assert name == "" || name[0] != '/' by {
      if Stem(Basename(garmentKey)) != "" {
        assert Basename(garmentKey)[0] == name[0];
        assert Basename(garmentKey)[0] in Basename(garmentKey);
      }
    }
    assert folder[|folder| - 1] in folder;
    PathJoinPlain(folder, name);
  }

  /** The garment key the try-on handler builds offers the submitted size for
      the submitted gender, by the test the size validator applies. */
  lemma GarmentKeyOffersSize(garment: string, gender: string, size: string)
    requires '/' !in garment && '/' !in gender && '/' !in size && '_' !in size
    ensures OffersSize(Routes.GarmentKey(garment, gender, size), garment, gender, size)
  {
    var key := Routes.GarmentKey(garment, gender, size);
    var upper := Routes.GarmentUpperCase(garment);
    var file := size + "_" + upper + ".blend";
    var t := "/" + file;
    var u := gender + t;
    var v := "/" + u;
    assert key == garment + v;
    assert file == size + ['_'] + (upper + ".blend");
    ContainsPrefix(key, garment, v);
    ContainsPrefix(u, gender, t);
    ContainsInSuffix("/", u, gender);
    ContainsInSuffix(garment, v, gender);
    FirstSegmentOf(size, upper + ".blend", '_');
    Routes.GarmentKeyShape(garment, gender, size);
  }

  /** The browser and the server accept the same genders: the form reports no
      gender issue exactly when `validate_gender` accepts the submitted value. */
  lemma GenderChecksAgree(values: Schema.FormValues, form: Form)
    requires "gender" in form && form["gender"] == values.gender
    ensures Schema.InvalidGender !in Schema.Issues(values) <==> ValidateGender(form).Some?
  {
    Schema.IssuesExactly(values);
  }
}
