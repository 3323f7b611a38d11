/** The browser-side check of the body-model form (`generateSchema`): the
    gender is one of two values, height and weight lie in fixed ranges after
    numeric coercion, and the photo is small enough and a JPEG or PNG. Every
    field is checked; the form is accepted when no check reports an issue. */
module Schema {
  import opened Wrappers

  /** `MAX_FILE_SIZE`: one mebibyte, although the comment and the message both
      say 5MB. */
  const MaxFileSize: nat := 1024 * 1024 * 1

  const AcceptedImageTypes: seq<string> := ["image/jpeg", "image/png"]

  const MinHeight: real := 140.0
  const MaxHeight: real := 220.0
  const MinWeight: real := 40.0
  const MaxWeight: real := 120.0

  /** The picked file: its size in bytes and its MIME type. */
  datatype ImageFile = ImageFile(size: nat, mimeType: string)

  /** What the form holds. A numeric field is the value `z.coerce.number()`
      produced, or None when coercion gave NaN. */
  datatype FormValues = FormValues(gender: string, height: Option<real>, weight: Option<real>,
                                   image: Option<ImageFile>)

  datatype Issue =
    | InvalidGender
    | HeightOutOfRange
    | WeightOutOfRange
    | ImageTooLarge      // "Image size should be less than 5MB"
    | InvalidImageType   // "Invalid image type. Only JPEG and PNG are accepted"

  predicate InRange(x: Option<real>, lo: real, hi: real) {
    x.Some? && lo <= x.value <= hi
  }

  /** `file?.size <= MAX_FILE_SIZE`; on a missing file the size is undefined
      and the comparison is false. */
  predicate SizeOk(image: Option<ImageFile>) {
    image.Some? && image.value.size <= MaxFileSize
  }

  /** `ACCEPTED_IMAGE_TYPES.includes(file?.type)`; undefined is not included. */
  predicate TypeOk(image: Option<ImageFile>) {
    image.Some? && image.value.mimeType in AcceptedImageTypes
  }

  function Check(ok: bool, issue: Issue): seq<Issue> {
    if ok then [] else [issue]
  }

  /** The issues parsing reports, in field order. */
  function Issues(f: FormValues): seq<Issue> {
    Check(f.gender == "male" || f.gender == "female", InvalidGender)
      + Check(InRange(f.height, MinHeight, MaxHeight), HeightOutOfRange)
      + Check(InRange(f.weight, MinWeight, MaxWeight), WeightOutOfRange)
      + Check(SizeOk(f.image), ImageTooLarge)
      + Check(TypeOk(f.image), InvalidImageType)
  }

  /** `generateSchema.safeParse(f).success` */
  predicate Accepts(f: FormValues) {
    Issues(f) == []
  }

  /** Each issue is reported exactly when its check fails, once. */
  lemma IssuesExactly(f: FormValues)
    ensures InvalidGender in Issues(f) <==> f.gender != "male" && f.gender != "female"
    ensures HeightOutOfRange in Issues(f) <==> !InRange(f.height, MinHeight, MaxHeight)
    ensures WeightOutOfRange in Issues(f) <==> !InRange(f.weight, MinWeight, MaxWeight)
    ensures ImageTooLarge in Issues(f) <==> !SizeOk(f.image)
    ensures InvalidImageType in Issues(f) <==> !TypeOk(f.image)
    ensures |Issues(f)| <= 5
  {
  }

  /** The form is accepted exactly when every field passes: a gender of "male"
      or "female", a height in [140, 220], a weight in [40, 120], both bounds
      included, and a JPEG or PNG of at most 1048576 bytes. */
  lemma AcceptsExactly(f: FormValues)
    ensures Accepts(f) <==>
      && (f.gender == "male" || f.gender == "female")
      && f.height.Some? && 140.0 <= f.height.value <= 220.0
      && f.weight.Some? && 40.0 <= f.weight.value <= 120.0
      && f.image.Some? && f.image.value.size <= 1048576
      && (f.image.value.mimeType == "image/jpeg" || f.image.value.mimeType == "image/png")
  {
    IssuesExactly(f);
    if !Accepts(f) {
      var i := Issues(f)[0];
      assert i in Issues(f);
    }
  }

  /** Without a photo both photo checks fail, whatever the other fields hold. */
  lemma MissingImageFailsBoth(f: FormValues)
    requires f.image.None?
    ensures ImageTooLarge in Issues(f) && InvalidImageType in Issues(f)
    ensures !Accepts(f)
  {
    IssuesExactly(f);
  }

  /** A photo of 5MB, the size the message names, is refused. */
  lemma FiveMegabytesRefused(f: FormValues)
    requires f.image == Some(ImageFile(5 * 1024 * 1024, "image/png"))
    ensures ImageTooLarge in Issues(f) && !Accepts(f)
  {
    IssuesExactly(f);
  }
}
