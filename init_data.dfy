/** The start-up seeding of the garment bucket: every local file under the data
    directory is uploaded under its relative path unless an object with that key
    already exists. */
module InitData {
  import opened Wrappers
  import opened PyStr
  import opened Storage

  /** One file `os.walk(data_path)` yields: the directory it lies in, relative
      to the data directory ("" for the data directory itself), its name and
      its bytes. */
  datatype LocalFile = LocalFile(dir: string, name: string, data: Bytes)

  /** `os.path.relpath(os.path.join(root, file), data_path)` */
  function RelativeKey(f: LocalFile): string {
    if f.dir == "" then f.name else f.dir + "/" + f.name
  }

  /** For a nested file the key is the directory and the name joined by
      `os.path.join`. */
  lemma RelativeKeyIsJoin(f: LocalFile)
    requires f.dir != "" && !EndsWith(f.dir, "/") && !StartsWith(f.name, "/")
    ensures RelativeKey(f) == PathJoin(f.dir, f.name)
  {
    PathJoinPlain(f.dir, f.name);
  }

  /** What `upload_data` returns: it falls off the end (None), returns False
      on a stat error other than NoSuchKey, or lets the S3Error of an upload
      made inside the except clause escape. */
  datatype UploadResult = ReturnedNone | ReturnedFalse | Raised(error: S3Error)

  /** The objects of the bucket after uploading `files` in order when no request
      fails: a key already present is skipped, a new key is listed last. */
  function Uploaded(objs: seq<StoredObject>, files: seq<LocalFile>): seq<StoredObject>
  {
    if files == [] then objs
    else
      var before := Uploaded(objs, files[..|files| - 1]);
      var f := files[|files| - 1];
      if RelativeKey(f) in Names(before) then before else before + [StoredObject(RelativeKey(f), f.data)]
  }

  /** The keys that run uploads, in upload order. */
  function NewKeys(objs: seq<StoredObject>, files: seq<LocalFile>): seq<string>
  {
    if files == [] then []
    else
      var init := files[..|files| - 1];
      var f := files[|files| - 1];
      NewKeys(objs, init) + (if RelativeKey(f) in Names(Uploaded(objs, init)) then [] else [RelativeKey(f)])
  }

  /** Successful `fput_object` requests for `keys` in order. */
  function Puts(bucket: string, keys: seq<string>): seq<Write> {
    seq(|keys|, i requires 0 <= i < |keys| => Put(bucket, keys[i], None))
  }

  /** The objects already stored come first and keep their bytes: nothing is
      overwritten. */
  lemma {:induction false} UploadedKeepsExisting(objs: seq<StoredObject>, files: seq<LocalFile>)
    ensures |objs| <= |Uploaded(objs, files)| && Uploaded(objs, files)[..|objs|] == objs
  {
    if files != [] {
      UploadedKeepsExisting(objs, files[..|files| - 1]);
    }
  }

  lemma NamesOfPrefix(objs: seq<StoredObject>, more: seq<StoredObject>, n: string)
    requires |objs| <= |more| && more[..|objs|] == objs
    requires n in Names(objs)
    ensures n in Names(more)
  {
    var i :| 0 <= i < |objs| && Names(objs)[i] == n;
    assert Names(more)[i] == n;
  }

  lemma NamesSnoc(objs: seq<StoredObject>, o: StoredObject)
    ensures Names(objs + [o]) == Names(objs) + [o.name]
  {
  }

  /** After the run every local file's key is stored. */
  lemma {:induction false} UploadedHoldsEveryKey(objs: seq<StoredObject>, files: seq<LocalFile>)
    ensures forall i :: 0 <= i < |files| ==> RelativeKey(files[i]) in Names(Uploaded(objs, files))
  {
    if files != [] {
      var init := files[..|files| - 1];
      UploadedHoldsEveryKey(objs, init);
      var before := Uploaded(objs, init);
      var after := Uploaded(objs, files);
      var f := files[|files| - 1];
      if RelativeKey(f) !in Names(before) {
        NamesSnoc(before, StoredObject(RelativeKey(f), f.data));
      }
      forall i | 0 <= i < |files|
        ensures RelativeKey(files[i]) in Names(after)
      {
        if i < |files| - 1 {
          assert files[i] == init[i];
          NamesOfPrefix(before, after, RelativeKey(files[i]));
        }
      }
    }
  }

  /** When every key is already stored the run uploads nothing. */
  lemma {:induction false} UploadedWhenAllPresent(objs: seq<StoredObject>, files: seq<LocalFile>)
    requires forall i :: 0 <= i < |files| ==> RelativeKey(files[i]) in Names(objs)
    ensures Uploaded(objs, files) == objs && NewKeys(objs, files) == []
  {
    if files != [] {
      UploadedWhenAllPresent(objs, files[..|files| - 1]);
    }
  }

  /** A second run over the same files stores nothing new and uploads nothing. */
  lemma SecondRunUploadsNothing(objs: seq<StoredObject>, files: seq<LocalFile>)
    ensures Uploaded(Uploaded(objs, files), files) == Uploaded(objs, files)
    ensures NewKeys(Uploaded(objs, files), files) == []
  {
    UploadedHoldsEveryKey(objs, files);
    UploadedWhenAllPresent(Uploaded(objs, files), files);
  }

  /** A run that uploads nothing leaves the objects as they were. */
  lemma {:induction false} NoNewKeysNoChange(objs: seq<StoredObject>, files: seq<LocalFile>)
    requires NewKeys(objs, files) == []
    ensures Uploaded(objs, files) == objs
  {
    if files != [] {
      NoNewKeysNoChange(objs, files[..|files| - 1]);
    }
  }

  /** The keys a prefix of the files uploads begin the keys all of them upload. */
  lemma {:induction false} NewKeysOfPrefix(objs: seq<StoredObject>, files: seq<LocalFile>, n: nat)
    requires n <= |files|
    ensures var head := NewKeys(objs, files[..n]);
      |head| <= |NewKeys(objs, files)| && NewKeys(objs, files)[..|head|] == head
    decreases |files| - n
  {
    if n == |files| {
      assert files[..n] == files;
    } else {
      var init := files[..|files| - 1];
      NewKeysOfPrefix(objs, init, n);
      assert init[..n] == files[..n];
    }
  }

  /** The run over one more file. */
  lemma UploadedStep(objs: seq<StoredObject>, files: seq<LocalFile>, i: nat)
    requires i < |files|
    ensures var before := Uploaded(objs, files[..i]);
            var key := RelativeKey(files[i]);
      && Uploaded(objs, files[..i + 1])
         == (if key in Names(before) then before else before + [StoredObject(key, files[i].data)])
      && NewKeys(objs, files[..i + 1])
         == NewKeys(objs, files[..i]) + (if key in Names(before) then [] else [key])
  {
    assert files[..i + 1][..i] == files[..i];
  }

  /** Every key a run uploads is the key of one of its files and was not
      stored before the run. */
  lemma {:induction false} NewKeysAreFileKeys(objs: seq<StoredObject>, files: seq<LocalFile>)
    ensures forall n :: n in NewKeys(objs, files) ==>
      n !in Names(objs) && exists j :: 0 <= j < |files| && RelativeKey(files[j]) == n
  {
    if files != [] {
      var init := files[..|files| - 1];
      NewKeysAreFileKeys(objs, init);
      UploadedKeepsExisting(objs, init);
      forall n | n in NewKeys(objs, files)
        ensures n !in Names(objs) && exists j :: 0 <= j < |files| && RelativeKey(files[j]) == n
      {
        if n in NewKeys(objs, init) {
          var j :| 0 <= j < |init| && RelativeKey(init[j]) == n;
          assert files[j] == init[j];
        } else {
          assert n == RelativeKey(files[|files| - 1]) && n !in Names(Uploaded(objs, init));
          if n in Names(objs) {
            NamesOfPrefix(objs, Uploaded(objs, init), n);
          }
        }
      }
    }
  }

  /** What one call of `upload_data` works on: the store's faults, the buckets
      as the call finds them, the bucket name and the files the walk yields. */
  datatype Seeding = Seeding(faults: set<(string, S3Op)>, keyFaults: set<(string, string, S3Op)>,
                             buckets: map<string, seq<StoredObject>>, bucket: string, files: seq<LocalFile>)

  /** The objects of the seeded bucket before the run, none when it is missing. */
  function Initial(run: Seeding): seq<StoredObject> {
    if run.bucket in run.buckets then run.buckets[run.bucket] else []
  }

  /** The buckets once the first `i` files have been handled without stopping. */
  function BucketsAfter(run: Seeding, i: nat): map<string, seq<StoredObject>>
    requires i <= |run.files|
  {
    if run.bucket in run.buckets then run.buckets[run.bucket := Uploaded(run.buckets[run.bucket], run.files[..i])]
    else run.buckets
  }

  /** What `stat_object` raises for file `i` once the files before it are handled. */
  function StatAt(run: Seeding, i: nat): Option<S3Error>
    requires i < |run.files|
  {
    StatIn(run.faults, run.keyFaults, BucketsAfter(run, i), run.bucket, RelativeKey(run.files[i]))
  }

  /** What `fput_object` raises for file `i` once the files before it are handled. */
  function PutAt(run: Seeding, i: nat): Option<S3Error>
    requires i < |run.files|
  {
    ObjectRequestError(run.faults, run.keyFaults, BucketsAfter(run, i), run.bucket,
                       RelativeKey(run.files[i]), S3Op.PutObject)
  }

  /** The loop ends at file `i`: its stat raises something other than
      NoSuchKey, or the upload made on NoSuchKey raises. */
  predicate StopsAt(run: Seeding, i: nat)
    requires i < |run.files|
  {
    var stat := StatAt(run, i);
    stat.Some? && (stat.value != NoSuchKey || PutAt(run, i).Some?)
  }

  /** The first file at or after `i` at which the loop ends, or the number of
      files. */
  function StopFrom(run: Seeding, i: nat): (k: nat)
    requires i <= |run.files|
    ensures i <= k <= |run.files|
    ensures forall j :: i <= j < k ==> !StopsAt(run, j)
    ensures k < |run.files| ==> StopsAt(run, k)
    decreases |run.files| - i
  {
    if i == |run.files| then i
    else if StopsAt(run, i) then i
    else StopFrom(run, i + 1)
  }

  /** The file at which the loop of `upload_data` ends: every earlier file was
      skipped or uploaded. */
  function StopIndex(run: Seeding): (k: nat)
    ensures k <= |run.files|
    ensures forall j :: 0 <= j < k ==> !StopsAt(run, j)
    ensures k < |run.files| ==> StopsAt(run, k)
  {
    StopFrom(run, 0)
  }

  /** What `upload_data` returns when its loop ends at file `k`. */
  function Outcome(run: Seeding, k: nat): UploadResult
    requires k <= |run.files|
  {
    if k == |run.files| then ReturnedNone
    else if StatAt(run, k) != Some(NoSuchKey) then ReturnedFalse
    else if PutAt(run, k).Some? then Raised(PutAt(run, k).value)
    else ReturnedNone
  }

  /** The failed upload that ends the loop at file `k`, if it ended that way. */
  function FailedPut(run: Seeding, k: nat): seq<Write>
    requires k <= |run.files|
  {
    if k < |run.files| && StatAt(run, k) == Some(NoSuchKey) then
      [Put(run.bucket, RelativeKey(run.files[k]), PutAt(run, k))]
    else []
  }

  /** The write log when the loop ends at file `k`: the uploads of the files
      before it, then the failed upload, if any. */
  function WritesAfter(run: Seeding, writes0: seq<Write>, k: nat): seq<Write>
    requires k <= |run.files|
  {
    writes0 + Puts(run.bucket, NewKeys(Initial(run), run.files[..k])) + FailedPut(run, k)
  }

  /** With no fault on the bucket or on any file's key, the run handles every
      file and stores every key. */
  lemma HealthyRunCompletes(run: Seeding)
    requires run.bucket in run.buckets
    requires (run.bucket, S3Op.StatObject) !in run.faults && (run.bucket, S3Op.PutObject) !in run.faults
    requires forall j :: 0 <= j < |run.files| ==>
      (run.bucket, RelativeKey(run.files[j]), S3Op.StatObject) !in run.keyFaults
      && (run.bucket, RelativeKey(run.files[j]), S3Op.PutObject) !in run.keyFaults
    ensures StopIndex(run) == |run.files| && Outcome(run, StopIndex(run)) == ReturnedNone
    ensures BucketsAfter(run, StopIndex(run)) == run.buckets[run.bucket := Uploaded(Initial(run), run.files)]
  {
    assert run.files[..|run.files|] == run.files;
  }

  /** Seeding a missing bucket returns False at the first file and writes nothing. */
  lemma MissingBucketReturnsFalse(run: Seeding)
    requires run.bucket !in run.buckets && run.files != []
    ensures StopIndex(run) == 0 && Outcome(run, 0) == ReturnedFalse && WritesAfter(run, [], 0) == []
  {
    assert StopsAt(run, 0);
  }

  /** When the loop ends at file `k`, the bucket still holds every object it
      held, with its bytes, and holds the key of every file before `k`. */
  lemma StoppedRunKeepsPrefix(run: Seeding)
    requires run.bucket in run.buckets
    ensures var k := StopIndex(run);
      var objs := BucketsAfter(run, k)[run.bucket];
      && |Initial(run)| <= |objs| && objs[..|Initial(run)|] == Initial(run)
      && forall j :: 0 <= j < k ==> RelativeKey(run.files[j]) in Names(objs)
  {
    var k := StopIndex(run);
    UploadedKeepsExisting(Initial(run), run.files[..k]);
    UploadedHoldsEveryKey(Initial(run), run.files[..k]);
    assert forall j :: 0 <= j < k ==> run.files[..k][j] == run.files[j];
  }

  /** The write log of a run names only the keys of the files up to the one at
      which it ends. */
  lemma WritesOnlyReachedFiles(run: Seeding, k: nat)
    requires k == StopIndex(run)
    ensures forall w :: w in WritesAfter(run, [], k) ==>
      w.Put? && w.bucket == run.bucket && exists j :: 0 <= j <= k && j < |run.files| && RelativeKey(run.files[j]) == w.key
  {
    var keys := NewKeys(Initial(run), run.files[..k]);
    NewKeysAreFileKeys(Initial(run), run.files[..k]);
    forall w | w in WritesAfter(run, [], k)
      ensures w.Put? && w.bucket == run.bucket
        && exists j :: 0 <= j <= k && j < |run.files| && RelativeKey(run.files[j]) == w.key
    {
      assert WritesAfter(run, [], k) == Puts(run.bucket, keys) + FailedPut(run, k);
      if w in Puts(run.bucket, keys) {
        var i :| 0 <= i < |keys| && Puts(run.bucket, keys)[i] == w;
        assert keys[i] in keys;
        var j :| 0 <= j < k && RelativeKey(run.files[..k][j]) == keys[i];
        assert run.files[..k][j] == run.files[j];
      } else {
        assert w in FailedPut(run, k);
        assert RelativeKey(run.files[k]) == w.key;
      }
    }
  }

  /** `upload_data(s3_client, bucket_name, data_path)` over the files the walk
      yields, in walk order. The loop ends at the first file whose stat raises
      something other than NoSuchKey (False) or whose upload raises (the
      error escapes); the files before it are uploaded or skipped, the files
      after it are not looked at. */
  method UploadData(store: ObjectStore, bucket: string, files: seq<LocalFile>) returns (r: UploadResult)
    modifies store`buckets, store`writes
    ensures var run := Seeding(store.faults, store.keyFaults, old(store.buckets), bucket, files);
      var k := StopIndex(run);
      && r == Outcome(run, k)
      && store.buckets == BucketsAfter(run, k)
      && store.writes == WritesAfter(run, old(store.writes), k)
  {
    ghost var run := Seeding(store.faults, store.keyFaults, store.buckets, bucket, files);
    ghost var writes0 := store.writes;
    for i := 0 to |files|
      invariant Progress(run, i, writes0, store.buckets, store.writes)
    {
      var stop := UploadFile(store, bucket, files, i, run, writes0);
      if stop.Some? {
        return stop.value;
      }
    }
    assert StopIndex(run) == |files|;
    return ReturnedNone;
  }

  /** The bucket's objects and the write log after `upload_data` has handled the
      first `i` files without stopping, from `writes0`. */
  predicate Progress(run: Seeding, i: nat, writes0: seq<Write>,
                     buckets: map<string, seq<StoredObject>>, writes: seq<Write>)
  {
    && i <= |run.files|
    && (forall j :: 0 <= j < i ==> !StopsAt(run, j))
    && buckets == BucketsAfter(run, i)
    && writes == writes0 + Puts(run.bucket, NewKeys(Initial(run), run.files[..i]))
  }

  /** When file `i` ends the loop, it is the file `StopIndex` names. */
  lemma StopStep(run: Seeding, i: nat, writes0: seq<Write>, buckets: map<string, seq<StoredObject>>, writes: seq<Write>)
    requires i < |run.files| && Progress(run, i, writes0, buckets, writes) && StopsAt(run, i)
    ensures StopIndex(run) == i
    ensures writes + FailedPut(run, i) == WritesAfter(run, writes0, i)
  {
  }

  /** A file whose key is already stored is skipped. */
  lemma SkipStep(run: Seeding, i: nat, writes0: seq<Write>, buckets: map<string, seq<StoredObject>>, writes: seq<Write>)
    requires i < |run.files| && Progress(run, i, writes0, buckets, writes)
    requires StatAt(run, i).None?
    ensures !StopsAt(run, i) && Progress(run, i + 1, writes0, buckets, writes)
  {
    UploadedStep(Initial(run), run.files, i);
  }

  /** A file whose key is missing is uploaded and listed last. */
  lemma UploadStep(run: Seeding, i: nat, writes0: seq<Write>, buckets: map<string, seq<StoredObject>>, writes: seq<Write>)
    requires i < |run.files| && Progress(run, i, writes0, buckets, writes)
    requires StatAt(run, i) == Some(NoSuchKey) && PutAt(run, i).None?
    ensures run.bucket in buckets && RelativeKey(run.files[i]) !in Names(buckets[run.bucket])
    ensures !StopsAt(run, i)
    ensures Progress(run, i + 1, writes0,
                     buckets[run.bucket := Upsert(buckets[run.bucket], RelativeKey(run.files[i]), run.files[i].data)],
                     writes + [Put(run.bucket, RelativeKey(run.files[i]), None)])
  {
    var key, data := RelativeKey(run.files[i]), run.files[i].data;
    var objs0 := Initial(run);
    var before := Uploaded(objs0, run.files[..i]);
    assert run.bucket in run.buckets && buckets[run.bucket] == before;
    assert key !in Names(before);
    UploadedStep(objs0, run.files, i);
    assert Uploaded(objs0, run.files[..i + 1]) == Upsert(before, key, data);
    assert buckets[run.bucket := Upsert(before, key, data)] == BucketsAfter(run, i + 1);
    PutsSnoc(run.bucket, NewKeys(objs0, run.files[..i]), key);
    assert NewKeys(objs0, run.files[..i + 1]) == NewKeys(objs0, run.files[..i]) + [key];
    Advance(run, i, writes0, buckets[run.bucket := Upsert(before, key, data)], writes + [Put(run.bucket, key, None)]);
  }

  /** Handling file `i` without stopping extends the progress by one file. */
  lemma Advance(run: Seeding, i: nat, writes0: seq<Write>, buckets: map<string, seq<StoredObject>>, writes: seq<Write>)
    requires i < |run.files| && (forall j :: 0 <= j < i ==> !StopsAt(run, j)) && !StopsAt(run, i)
    requires buckets == BucketsAfter(run, i + 1)
    requires writes == writes0 + Puts(run.bucket, NewKeys(Initial(run), run.files[..i + 1]))
    ensures Progress(run, i + 1, writes0, buckets, writes)
  {
  }

  lemma PutsSnoc(bucket: string, keys: seq<string>, key: string)
    ensures Puts(bucket, keys + [key]) == Puts(bucket, keys) + [Put(bucket, key, None)]
  {
  }

  /** When the first `i` files upload nothing and file `i` is missing, its key
      is the first the run uploads. */
  lemma FirstNewKey(objs: seq<StoredObject>, files: seq<LocalFile>, i: nat)
    requires i < |files| && NewKeys(objs, files[..i]) == []
    requires RelativeKey(files[i]) !in Names(objs)
    ensures NewKeys(objs, files) != [] && NewKeys(objs, files)[0] == RelativeKey(files[i])
  {
    var key := RelativeKey(files[i]);
    NoNewKeysNoChange(objs, files[..i]);
    assert Uploaded(objs, files[..i]) == objs;
    UploadedStep(objs, files, i);
    var head := NewKeys(objs, files[..i + 1]);
    assert head == [] + [key];
    NewKeysOfPrefix(objs, files, i + 1);
    var all := NewKeys(objs, files);
    assert |head| <= |all| && all[..|head|] == head;
    assert all[0] == head[0];
  }

  /** One pass of the loop body of `upload_data` over file `i`: stat its key;
      skip it when it exists, upload it on NoSuchKey, stop with False on any
      other error; an upload that raises stops the run. */
  method UploadFile(store: ObjectStore, bucket: string, files: seq<LocalFile>, i: nat,
                    ghost run: Seeding, ghost writes0: seq<Write>)
    returns (stop: Option<UploadResult>)
    requires run.faults == store.faults && run.keyFaults == store.keyFaults
    requires run.bucket == bucket && run.files == files
    requires i < |files| && Progress(run, i, writes0, store.buckets, store.writes)
    modifies store`buckets, store`writes
    ensures stop.None? ==> !StopsAt(run, i) && Progress(run, i + 1, writes0, store.buckets, store.writes)
    ensures stop.Some? ==>
      && StopIndex(run) == i
      && stop.value == Outcome(run, i)
      && store.buckets == BucketsAfter(run, i)
      && store.writes == WritesAfter(run, writes0, i)
  {
    var relativePath := RelativeKey(files[i]);
    var stat := store.StatObject(bucket, relativePath);
    assert stat == StatAt(run, i);
    if stat.None? {
      SkipStep(run, i, writes0, store.buckets, store.writes);
      return None;
    }
    if stat.value == NoSuchKey {
      if PutAt(run, i).None? {
        UploadStep(run, i, writes0, store.buckets, store.writes);
      }
      ghost var writesBefore := store.writes;
      var e := store.PutObject(bucket, relativePath, files[i].data);
      assert e == PutAt(run, i);
      if e.Some? {
        StopStep(run, i, writes0, store.buckets, writesBefore);
        return Some(Raised(e.value));
      }
      return None;
    }
    StopStep(run, i, writes0, store.buckets, store.writes);
    return Some(ReturnedFalse);
  }
}
