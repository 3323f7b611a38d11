/** The request validators: form fields and uploaded files checked against fixed
    values and against what the object store lists. A validator answers the
    submitted value itself, or None. */
module Validation {
  import opened Wrappers
  import opened PyStr
  import opened Storage

  /** A submitted form: field name to value. */
  type Form = map<string, string>

  /** An uploaded file (a werkzeug FileStorage): its client-side file name and
      its bytes. A FileStorage is falsy exactly when its file name is empty. */
  datatype Upload = Upload(filename: string, content: Bytes)

  type Files = map<string, Upload>

  /** `files["obj"]` on a request without that field raises KeyError. */
  datatype MissingField = KeyError(field: string)

  /** `validate_gender(form)` */
  function ValidateGender(form: Form): (r: Option<string>)
    ensures r.Some? <==> "gender" in form && (form["gender"] == "male" || form["gender"] == "female")
    ensures r.Some? ==> r.value == form["gender"]
  {
    if "gender" !in form then None
    else if form["gender"] !in ["male", "female"] then None
    else Some(form["gender"])
  }

  /** `validate_image(files)` */
  function ValidateImage(files: Files): (r: Option<Upload>)
    ensures r.Some? <==> "image" in files && files["image"].filename != ""
    ensures r.Some? ==> r.value == files["image"]
  {
    if "image" !in files then None
    else if files["image"].filename == "" then None
    else Some(files["image"])
  }

  /** A value the validators accept is accepted again when submitted alone. */
  lemma GenderRevalidates(form: Form)
    requires ValidateGender(form).Some?
    ensures ValidateGender(map["gender" := ValidateGender(form).value]) == ValidateGender(form)
  {
  }

  /** The answer of the scan in `validate_obj` over the listed names: the first
      ".obj" name whose stored bytes equal `content`; None when there is none,
      and also when fetching an ".obj" object raises before a match. */
  function FirstMatchingObj(store: ObjectStore, bucket: string, names: seq<string>, content: Bytes): (r: Option<string>)
    reads store
    ensures r.Some? ==> r.value in names && EndsWith(r.value, ".obj")
                        && store.GetObject(bucket, r.value) == Success(content)
  {
    if names == [] then None
    else if EndsWith(names[0], ".obj") then
      var data := store.GetObject(bucket, names[0]);
      if data.Failure? then None
      else if data.value == content then Some(names[0])
      else FirstMatchingObj(store, bucket, names[1..], content)
    else FirstMatchingObj(store, bucket, names[1..], content)
  }

  /** The match found is the first in listing order: no name before its
      position is an ".obj" with the same bytes. */
  lemma {:induction false} FirstMatchingObjIsFirst(store: ObjectStore, bucket: string, names: seq<string>, content: Bytes)
    returns (i: nat)
    requires FirstMatchingObj(store, bucket, names, content).Some?
    ensures i < |names| && names[i] == FirstMatchingObj(store, bucket, names, content).value
    ensures forall j :: 0 <= j < i ==>
      !(EndsWith(names[j], ".obj") && store.GetObject(bucket, names[j]) == Success(content))
  {
    if EndsWith(names[0], ".obj") && store.GetObject(bucket, names[0]) == Success(content) {
      i := 0;
    } else {
      assert FirstMatchingObj(store, bucket, names, content) == FirstMatchingObj(store, bucket, names[1..], content);
      var k := FirstMatchingObjIsFirst(store, bucket, names[1..], content);
      i := k + 1;
      forall j | 0 <= j < i
        ensures !(EndsWith(names[j], ".obj") && store.GetObject(bucket, names[j]) == Success(content))
      {
        if j > 0 {
          assert names[j] == names[1..][j - 1];
        }
      }
    }
  }

  /** When fetching works, finding nothing means no ".obj" object holds the bytes. */
  lemma {:induction false} FirstMatchingObjNone(store: ObjectStore, bucket: string, names: seq<string>, content: Bytes)
    requires (bucket, S3Op.GetObject) !in store.faults && bucket in store.buckets
    requires forall n :: n in names ==> n in Names(store.buckets[bucket]) && (bucket, n, S3Op.GetObject) !in store.keyFaults
    ensures FirstMatchingObj(store, bucket, names, content).None? <==>
      forall n :: n in names && EndsWith(n, ".obj") ==> store.GetObject(bucket, n) != Success(content)
  {
    if names != [] {
      FirstMatchingObjNone(store, bucket, names[1..], content);
      assert forall n :: n in names <==> n == names[0] || n in names[1..];
    }
  }

  /** The answer of `validate_obj` on a request that has an "obj" file: None
      for an empty file name or a failed listing, else the first match. */
  function SubmittedObj(files: Files, store: ObjectStore, bucket: string): Option<string>
    requires "obj" in files
    reads store
  {
    if files["obj"].filename == "" then None
    else if store.ListObjects(bucket).Failure? then None
    else FirstMatchingObj(store, bucket, Names(store.ListObjects(bucket).value), files["obj"].content)
  }

  /** `validate_obj(files, s3, bucket_name)` */
  method ValidateObj(files: Files, store: ObjectStore, bucket: string) returns (r: Result<Option<string>, MissingField>)
    ensures "obj" !in files <==> r.Failure?
    ensures r.Failure? ==> r.error == KeyError("obj")
    ensures "obj" in files && files["obj"].filename == "" ==> r == Success(None)
    ensures "obj" in files && files["obj"].filename != "" ==>
      r == Success(if store.ListObjects(bucket).Failure? then None
                   else FirstMatchingObj(store, bucket, Names(store.ListObjects(bucket).value), files["obj"].content))
    ensures "obj" in files ==> r == Success(SubmittedObj(files, store, bucket))
  {
    if "obj" !in files {
      return Failure(KeyError("obj"));
    }
    var upload := files["obj"];
    if upload.filename == "" {
      return Success(None);
    }
    var objContent := upload.content;
    var objects := store.ListObjects(bucket);
    if objects.Failure? {
      return Success(None);
    }
    var names := Names(objects.value);
    for i := 0 to |objects.value|
      invariant FirstMatchingObj(store, bucket, names, objContent) == FirstMatchingObj(store, bucket, names[i..], objContent)
    {
      assert names[i..][1..] == names[i + 1..];
      var name := objects.value[i].name;
      if EndsWith(name, ".obj") {
        var data := store.GetObject(bucket, name);
        if data.Failure? {
          return Success(None);
        }
        if objContent == data.value {
          return Success(Some(name));
        }
      }
    }
    return Success(None);
  }

  /** A listed name that offers a garment: a ".blend" outside the previews. */
  predicate OffersGarment(name: string, garment: string) {
    EndsWith(name, ".blend") && !Contains(name, "previews") && FirstSegment(name, '/') == garment
  }

  /** A listed name that offers a size of the garment for the gender. The tests
      are substring tests. */
  predicate OffersSize(name: string, garment: string, gender: string, size: string) {
    EndsWith(name, ".blend") && Contains(name, garment) && Contains(name, gender)
    && FirstSegment(Basename(name), '_') == size
  }

  /** Because the gender test is a substring test, every size a "female" name
      offers is also offered for "male". */
  lemma FemaleSizesServeMale(name: string, garment: string, size: string)
    requires OffersSize(name, garment, "female", size)
    ensures OffersSize(name, garment, "male", size)
  {
    FemaleContainsMale(name);
  }

  /** The bucket can be listed and some listed name offers the garment. */
  predicate GarmentOffered(store: ObjectStore, bucket: string, garment: string)
    reads store
  {
    && store.ListObjects(bucket).Success?
    && exists i :: 0 <= i < |store.ListObjects(bucket).value|
                   && OffersGarment(store.ListObjects(bucket).value[i].name, garment)
  }

  /** The bucket can be listed and some listed name offers the size. */
  predicate SizeOffered(store: ObjectStore, bucket: string, garment: string, gender: string, size: string)
    reads store
  {
    && store.ListObjects(bucket).Success?
    && exists i :: 0 <= i < |store.ListObjects(bucket).value|
                   && OffersSize(store.ListObjects(bucket).value[i].name, garment, gender, size)
  }

  /** `validate_garment(form, s3, bucket_name)`: the submitted garment, if it is
      the folder of some listed garment file. */
  method ValidateGarment(form: Form, store: ObjectStore, bucket: string) returns (r: Option<string>)
    ensures r.Some? <==> "garment" in form && GarmentOffered(store, bucket, form["garment"])
    ensures r.Some? ==> r.value == form["garment"]
  {
    if "garment" !in form {
      return None;
    }
    var garment := form["garment"];
    var objects := store.ListObjects(bucket);
    if objects.Failure? {
      return None;
    }
    var availableGarments: seq<string> := [];
    for i := 0 to |objects.value|
      invariant forall g :: g in availableGarments <==>
        exists j :: 0 <= j < i && OffersGarment(objects.value[j].name, g)
    {
      var name := objects.value[i].name;
      if EndsWith(name, ".blend") && !Contains(name, "previews") {
        availableGarments := availableGarments + [FirstSegment(name, '/')];
      }
    }
    if garment !in availableGarments {
      return None;
    }
    return Some(garment);
  }

  /** `validate_size(form, s3, bucket_name, garment, gender)`: the submitted
      size, if some listed garment file offers it. */
  method ValidateSize(form: Form, store: ObjectStore, bucket: string, garment: string, gender: string)
    returns (r: Option<string>)
    ensures r.Some? <==> "size" in form && SizeOffered(store, bucket, garment, gender, form["size"])
    ensures r.Some? ==> r.value == form["size"]
  {
    if "size" !in form {
      return None;
    }
    var size := form["size"];
    var objects := store.ListObjects(bucket);
    if objects.Failure? {
      return None;
    }
    var availableSizes: seq<string> := [];
    for i := 0 to |objects.value|
      invariant forall s :: s in availableSizes <==>
        exists j :: 0 <= j < i && OffersSize(objects.value[j].name, garment, gender, s)
    {
      var name := objects.value[i].name;
      if EndsWith(name, ".blend") && Contains(name, garment) && Contains(name, gender) {
        var fileName := Basename(name);
        var fileSize := FirstSegment(fileName, '_');
        availableSizes := availableSizes + [fileSize];
      }
    }
    if size !in availableSizes {
      return None;
    }
    return Some(size);
  }
}
