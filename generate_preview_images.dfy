/** The preview service: which garment previews are missing for a gender, the
    container run that renders them with volume reclamation by set difference,
    and the rewrite of presigned URLs to the reverse proxy's address. */
module PreviewImages {
  import opened Wrappers
  import opened PyStr
  import opened Docker
  import opened Storage

  /** What the preview helpers can raise. */
  datatype ListingError = StoreFailed(code: S3Error) | IndexError

  /** A garment file of the size and gender: ends ".blend", its basename starts
      with "{size}_", and its second "/"-segment is the gender. */
  predicate IsBlendFor(name: string, gender: string, size: string) {
    EndsWith(name, ".blend") && StartsWith(Basename(name), size + "_")
    && |Split(name, '/')| >= 2 && Split(name, '/')[1] == gender
  }

  /** The names on which the blend comprehension evaluates `split("/")[1]` and
      finds no second segment. */
  predicate RaisesIndexError(name: string, size: string) {
    EndsWith(name, ".blend") && StartsWith(Basename(name), size + "_") && |Split(name, '/')| < 2
  }

  /** A preview of the gender: starts "previews", ends ".png", basename "{gender}.png". */
  predicate IsPreviewFor(name: string, gender: string) {
    StartsWith(name, "previews") && EndsWith(name, ".png") && Basename(name) == gender + ".png"
  }

  /** `get_files_by_gender(bucket, gender, garment_size)` over the bucket's
      listing: the blend files and the preview files, each in listing order. */
  function GetFilesByGender(listing: Result<seq<StoredObject>, S3Error>, gender: string, size: string)
    : (r: Result<(seq<string>, seq<string>), ListingError>)
    ensures listing.Failure? ==> r == Failure(StoreFailed(listing.error))
    ensures listing.Success? ==>
      (r.Failure? <==> exists i :: 0 <= i < |listing.value| && RaisesIndexError(listing.value[i].name, size))
    ensures r.Success? ==>
      var (blends, previews) := r.value;
      var names := Names(listing.value);
      && (forall n :: n in blends <==> n in names && IsBlendFor(n, gender, size))
      && (forall n :: n in previews <==> n in names && IsPreviewFor(n, gender))
      && IsSubsequence(blends, names) && IsSubsequence(previews, names)
  {
    if listing.Failure? then Failure(StoreFailed(listing.error))
    else
      var names := Names(listing.value);
      if exists i :: 0 <= i < |names| && RaisesIndexError(names[i], size) then Failure(IndexError)
      else
        FilterIsSubsequence(names, n => IsBlendFor(n, gender, size));
        FilterIsSubsequence(names, n => IsPreviewFor(n, gender));
        Success((Filter(names, n => IsBlendFor(n, gender, size)), Filter(names, n => IsPreviewFor(n, gender))))
  }

  /** The preview key `find_missing_previews` looks for:
      "previews/{first segment}/{second segment}.png". */
  function PreviewKey(blend: string): string
    requires |Split(blend, '/')| >= 2
  {
    "previews/" + Split(blend, '/')[0] + "/" + Split(blend, '/')[1] + ".png"
  }

  predicate LacksPreview(blend: string, previews: seq<string>) {
    |Split(blend, '/')| >= 2 && PreviewKey(blend) !in previews
  }

  /** The blend files without a preview, in their order. */
  function Missing(blends: seq<string>, previews: seq<string>): seq<string> {
    Filter(blends, b => LacksPreview(b, previews))
  }

  lemma MissingSnoc(blends: seq<string>, b: string, previews: seq<string>)
    ensures Missing(blends + [b], previews)
         == Missing(blends, previews) + (if LacksPreview(b, previews) then [b] else [])
  {
    FilterSnoc(blends, b, b => LacksPreview(b, previews));
  }

  /** When every blend file has a second segment, the missing ones are those
      whose preview key is not listed, and none is missing exactly when every
      key is listed. */
  lemma MissingMeaning(blends: seq<string>, previews: seq<string>)
    requires forall j :: 0 <= j < |blends| ==> |Split(blends[j], '/')| >= 2
    ensures IsSubsequence(Missing(blends, previews), blends)
    ensures forall b :: b in Missing(blends, previews) <==> b in blends && PreviewKey(b) !in previews
    ensures Missing(blends, previews) == [] <==> forall i :: 0 <= i < |blends| ==> PreviewKey(blends[i]) in previews
  {
    FilterIsSubsequence(blends, b => LacksPreview(b, previews));
    FilterEmpty(blends, b => LacksPreview(b, previews));
  }

  /** `find_missing_previews(blend_files, preview_files)` */
  method FindMissingPreviews(blendFiles: seq<string>, previewFiles: seq<string>)
    returns (r: Result<seq<string>, ListingError>)
    ensures r.Failure? <==> exists i :: 0 <= i < |blendFiles| && |Split(blendFiles[i], '/')| < 2
    ensures r.Failure? ==> r.error == IndexError
    ensures r.Success? ==> IsSubsequence(r.value, blendFiles)
    ensures r.Success? ==> forall b :: b in r.value <==> b in blendFiles && PreviewKey(b) !in previewFiles
    ensures r.Success? ==>
      (r.value == [] <==> forall i :: 0 <= i < |blendFiles| ==> PreviewKey(blendFiles[i]) in previewFiles)
  {
    var missing: seq<string> := [];
    var i := 0;
    while i < |blendFiles|
      invariant 0 <= i <= |blendFiles|
      invariant forall j :: 0 <= j < i ==> |Split(blendFiles[j], '/')| >= 2
      invariant missing == Missing(blendFiles[..i], previewFiles)
    {
      var parts := Split(blendFiles[i], '/');
      if |parts| < 2 {
        return Failure(IndexError);
      }
      var clothing := parts[0];
      var gender := parts[1];
      var previewFile := "previews/" + clothing + "/" + gender + ".png";
      MissingSnoc(blendFiles[..i], blendFiles[i], previewFiles);
      assert blendFiles[..i + 1] == blendFiles[..i] + [blendFiles[i]];
      if previewFile !in previewFiles {
        missing := missing + [blendFiles[i]];
      }
      i := i + 1;
    }
    assert blendFiles[..i] == blendFiles;
    MissingMeaning(blendFiles, previewFiles);
    r := Success(missing);
  }

  /** The shell line the blender container runs: the bucket and the missing
      blend paths joined by ",". */
  function PreviewScriptLine(bucketName: string, missingPreviews: seq<string>): string {
    "python3" + " " + PreviewScript + " " + bucketName + " " + Join(missingPreviews, ',')
  }

  const PreviewScript: string := "./minio_helpers/fetch_generate_preview.py"

  lemma ScriptHasNoSpace()
    ensures ' ' !in "python3" && ' ' !in PreviewScript
  {
  }

  /** A join of names free of spaces holds no space. */
  lemma {:induction false} JoinHasNoSpace(parts: seq<string>)
    requires forall i :: 0 <= i < |parts| ==> ' ' !in parts[i]
    ensures ' ' !in Join(parts, ',')
  {
    if |parts| > 1 {
      JoinHasNoSpace(parts[1..]);
      assert Join(parts, ',') == parts[0] + [','] + Join(parts[1..], ',');
      assert ' ' !in parts[0];
    }
  }

  /** Four words free of spaces, joined by single spaces, split back into
      themselves. */
  lemma SplitFourWords(a: string, b: string, c: string, d: string)
    requires ' ' !in a && ' ' !in b && ' ' !in c && ' ' !in d
    ensures Split(a + " " + b + " " + c + " " + d, ' ') == [a, b, c, d]
  {
    var words := [a, b, c, d];
    var j2 := c + [' '] + d;
    var j1 := b + [' '] + j2;
    var j0 := a + [' '] + j1;
    assert Join(words[3..], ' ') == d;
    assert Join(words[2..], ' ') == j2;
    assert Join(words[1..], ' ') == j1;
    assert Join(words, ' ') == j0;
    assert a + " " + b + " " + c + " " + d == j0;
    SplitJoin(words, ' ');
  }

  /** The words of the shell line, for a bucket and names free of spaces: the
      interpreter, the script, the bucket and the joined names. */
  lemma PreviewScriptWords(bucketName: string, missingPreviews: seq<string>)
    requires ' ' !in bucketName
    requires forall i :: 0 <= i < |missingPreviews| ==> ' ' !in missingPreviews[i]
    ensures Split(PreviewScriptLine(bucketName, missingPreviews), ' ')
         == ["python3", PreviewScript, bucketName, Join(missingPreviews, ',')]
  {
    ScriptHasNoSpace();
    JoinHasNoSpace(missingPreviews);
    SplitFourWords("python3", PreviewScript, bucketName, Join(missingPreviews, ','));
  }

  /** The `containers.run` call of `generate_preview_imgs`. */
  function PreviewSpec(bucketName: string, missingPreviews: seq<string>): ContainerSpec {
    ContainerSpec(
      image := "blender:latest",
      entrypoint := Some("/bin/bash"),
      command := "-c '" + PreviewScriptLine(bucketName, missingPreviews) + "'",
      gpu := true,
      network := Some(AppNetwork),
      detach := true,
      autoRemove := false,
      binds := [],
      environment := StoreEnvironment)
  }

  function Elems<T>(s: seq<T>): set<T> { set x | x in s }

  predicate Distinct<T(==)>(s: seq<T>) {
    forall i, j :: 0 <= i < j < |s| ==> s[i] != s[j]
  }

  lemma DistinctSnoc<T>(s: seq<T>, x: T)
    requires Distinct(s) && x !in s
    ensures Distinct(s + [x]) && Elems(s + [x]) == Elems(s) + {x}
  {
  }

  /** The calls of a successful `generate_preview_imgs`, after the first five:
      one removal attempt for every volume in `candidates`, in some order, each
      exactly once. */
  predicate ReclaimsExactly(calls: seq<Call>, candidates: set<string>) {
    && (forall i :: 0 <= i < |calls| ==> calls[i].op.RemoveVolume?)
    && Distinct(AttemptedRemovals(calls))
    && Elems(AttemptedRemovals(calls)) == candidates
  }

  /** The loop of `generate_preview_imgs` over the volumes that appeared while
      the container ran: every one except the persistent volume is removed,
      and a failed removal is only logged. */
  method ReclaimVolumes(client: Daemon, newVolumes: set<string>) returns (ghost calls: seq<Call>)
    requires client.Valid()
    modifies client`volumes, client`log
    ensures client.log == old(client.log) + calls
    ensures ReclaimsExactly(calls, newVolumes - {PersistentVolume})
    ensures client.volumes == old(client.volumes) - SucceededRemovals(calls)
    ensures SucceededRemovals(calls) <= newVolumes - {PersistentVolume}
  {
    calls := [];
    var remaining := newVolumes;
    while remaining != {}
      invariant remaining <= newVolumes
      invariant client.log == old(client.log) + calls
      invariant ReclaimsExactly(calls, newVolumes - remaining - {PersistentVolume})
      invariant client.volumes == old(client.volumes) - SucceededRemovals(calls)
      invariant SucceededRemovals(calls) <= newVolumes - remaining - {PersistentVolume}
      decreases remaining
    {
      var volume :| volume in remaining;
      if volume != PersistentVolume {
        var failure := client.RemoveVolume(volume);
        AppendCall(calls, Call(Op.RemoveVolume(volume), failure));
        assert volume !in Elems(AttemptedRemovals(calls));
        DistinctSnoc(AttemptedRemovals(calls), volume);
        calls := calls + [Call(Op.RemoveVolume(volume), failure)];
      }
      assert newVolumes - (remaining - {volume}) - {PersistentVolume}
          == (newVolumes - remaining - {PersistentVolume}) + (if volume != PersistentVolume then {volume} else {});
      remaining := remaining - {volume};
    }
  }

  /** The five calls `generate_preview_imgs` makes before it reclaims volumes. */
  predicate PreviewCalls(calls: seq<Call>, spec: ContainerSpec) {
    && |calls| == 5
    && calls[0].op == ListVolumes
    && calls[1].op == Op.Run(spec)
    && calls[2].op.Wait?
    && calls[3].op == ListVolumes
    && calls[4].op == Op.RemoveContainer(calls[2].op.id, true)
    && (forall i :: 0 <= i < 5 ==> calls[i].error.None?)
  }

  /** The first five calls of `generate_preview_imgs`, up to the first error:
      on success, the names of the volumes that appeared while the container ran. */
  method RunPreviewContainer(client: Daemon, spec: ContainerSpec) returns (r: Result<set<string>, DockerError>, ghost calls: seq<Call>)
    requires client.Valid() && spec.detach
    modifies client
    ensures client.Valid()
    ensures client.log == old(client.log) + calls
    ensures forall i :: 0 <= i < |calls| ==> !calls[i].op.RemoveVolume?
    ensures r.Success? <==> Unfaulted(client.faults, |old(client.log)|, 5)
    ensures r.Failure? ==> 1 <= |calls| <= 5 && calls[|calls| - 1].error == Some(r.error)
    ensures r.Failure? ==> old(client.volumes) <= client.volumes <= old(client.volumes) + client.spawns
    ensures r.Success? ==>
      && PreviewCalls(calls, spec)
      && r.value == client.spawns - old(client.volumes)
      && client.volumes == old(client.volumes) + client.spawns
      && client.containers == old(client.containers)
  {
    ghost var start := |client.log|;
    var initialVolumes := client.ListVolumes();
    calls := [Call(ListVolumes, ErrorOf(initialVolumes))];
    if initialVolumes.Failure? {
      return Failure(initialVolumes.error), calls;
    }
    var run := client.Run(spec);
    calls := calls + [Call(Op.Run(spec), ErrorOf(run))];
    if run.Failure? {
      return Failure(run.error), calls;
    }
    var container := run.value.value;
    var status := client.Wait(container);
    calls := calls + [Call(Op.Wait(container), ErrorOf(status))];
    assert status.Success? <==> start + 2 !in client.faults;
    if status.Failure? {
      return Failure(status.error), calls;
    }
    var postVolumes := client.ListVolumes();
    calls := calls + [Call(ListVolumes, ErrorOf(postVolumes))];
    if postVolumes.Failure? {
      return Failure(postVolumes.error), calls;
    }
    var removed := client.RemoveContainer(container, true);
    calls := calls + [Call(Op.RemoveContainer(container, true), removed)];
    assert removed.None? <==> start + 4 !in client.faults;
    if removed.Some? {
      return Failure(removed.value), calls;
    }
    r := Success(postVolumes.value - initialVolumes.value);
  }

  /** `generate_preview_imgs(docker_client, bucket_name, missing_previews)`.
      List the volumes, start the detached blender container, wait for it, list
      the volumes again, force-remove the container, then try to remove every
      volume that appeared meanwhile except the persistent one. Any error of the
      first five calls returns False; removal errors are only logged. */
  method GeneratePreviewImgs(client: Daemon, bucketName: string, missingPreviews: seq<string>)
    returns (ok: bool, outcome: Outcome)
    requires client.Valid()
    modifies client
    ensures client.Valid()
    ensures |old(client.log)| < |client.log| && client.log[..|old(client.log)|] == old(client.log)
    ensures ok <==> outcome == Succeeded
    ensures ok <==> Unfaulted(client.faults, |old(client.log)|, 5)
    // a volume present before the run survives it
    ensures old(client.volumes) <= client.volumes <= old(client.volumes) + client.spawns
    ensures !ok ==>
      && |client.log| <= |old(client.log)| + 5
      && client.log[|client.log| - 1].error.Some?
      && outcome == Classify(client.log[|client.log| - 1].error.value)
      && AttemptedRemovals(client.log[|old(client.log)|..]) == []
    ensures ok ==>
      && |client.log| >= |old(client.log)| + 5
      && PreviewCalls(client.log[|old(client.log)|..|old(client.log)| + 5], PreviewSpec(bucketName, missingPreviews))
      && var reclaim := client.log[|old(client.log)| + 5..];
      && ReclaimsExactly(reclaim, client.spawns - old(client.volumes) - {PersistentVolume})
      && client.volumes == (old(client.volumes) + client.spawns) - SucceededRemovals(reclaim)
      && PersistentVolume !in SucceededRemovals(reclaim)
      && client.containers == old(client.containers)
  {
    ghost var start := |client.log|;
    var started, calls := RunPreviewContainer(client, PreviewSpec(bucketName, missingPreviews));
    assert client.log[start..] == calls;
    if started.Failure? {
      NoRemovals(calls);
      return false, Classify(started.error);
    }
    ghost var reclaim := ReclaimVolumes(client, started.value);
    assert client.log[start..start + 5] == calls;
    assert client.log[start + 5..] == reclaim;
    return true, Succeeded;
  }

  /** `generate_presigned_urls(bucket_name, file_paths)` given the URLs the store
      signed, one per path: each has "http://{endpoint}" replaced by the proxy's
      "http://minio.localhost". A missing MINIO_ENDPOINT makes it "http://None". */
  function GeneratePresignedUrls(endpoint: string, signedUrls: seq<string>): (r: seq<string>)
    ensures |r| == |signedUrls|
  {
    seq(|signedUrls|, i requires 0 <= i < |signedUrls| => ReplaceAll(signedUrls[i], "http://" + endpoint, ExternalUrlBase))
  }

  const ExternalUrlBase: string := "http://minio.localhost"

  /** A presigned URL as the store issues it: its endpoint, then the bucket and
      path, then the signature query. */
  function SignedUrl(endpoint: string, bucketName: string, path: string, query: string): string {
    "http://" + endpoint + "/" + bucketName + "/" + path + "?" + query
  }

  /** The rewrite keeps one URL per path, in order, and points each at the proxy
      with the same bucket, path and signature, provided the endpoint does not
      occur again later in the URL. */
  lemma PresignedUrlsRewritten(endpoint: string, bucketName: string, paths: seq<string>, queries: seq<string>)
    requires |paths| == |queries|
    requires forall i :: 0 <= i < |paths| ==>
      !Contains("/" + bucketName + "/" + paths[i] + "?" + queries[i], "http://" + endpoint)
    ensures var r := GeneratePresignedUrls(endpoint,
                       seq(|paths|, i requires 0 <= i < |paths| => SignedUrl(endpoint, bucketName, paths[i], queries[i])));
      |r| == |paths|
      && forall i :: 0 <= i < |paths| ==> r[i] == ExternalUrlBase + "/" + bucketName + "/" + paths[i] + "?" + queries[i]
  {
    var signed := seq(|paths|, i requires 0 <= i < |paths| => SignedUrl(endpoint, bucketName, paths[i], queries[i]));
    forall i | 0 <= i < |paths|
      ensures GeneratePresignedUrls(endpoint, signed)[i] == ExternalUrlBase + "/" + bucketName + "/" + paths[i] + "?" + queries[i]
    {
      var rest := "/" + bucketName + "/" + paths[i] + "?" + queries[i];
      assert signed[i] == ("http://" + endpoint) + rest;
      ReplaceLeading("http://" + endpoint, rest, ExternalUrlBase);
      ReplaceAbsent(rest, "http://" + endpoint, ExternalUrlBase);
    }
  }
}
