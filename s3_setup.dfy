/** Start-up creation of the two buckets the application uses, with a one-day
    expiry rule on the garment bucket. */
module S3Setup {
  import opened Wrappers
  import opened Storage

  const BucketsToCreate: seq<string> := ["data", "clothes"]

  /** The one rule of the lifecycle configuration: enabled, empty prefix,
      objects expire after one day. */
  const DeleteAfterOneDay := LifecycleRule("delete-after-1-day", true, 1, "")

  /** What a bucket set-up can change in the store. */
  datatype StoreState = StoreState(buckets: map<string, seq<StoredObject>>,
                                   lifecycles: map<string, seq<LifecycleRule>>,
                                   writes: seq<Write>)

  /** `set_lifecycle(bucket)`: the request is logged; an S3Error it raises is
      printed and swallowed. */
  function LifecycleStep(faults: set<(string, S3Op)>, bucket: string, st: StoreState): StoreState {
    var e := RequestError(faults, st.buckets, bucket, S3Op.SetLifecycle);
    StoreState(st.buckets,
               if e.None? then st.lifecycles[bucket := [DeleteAfterOneDay]] else st.lifecycles,
               st.writes + [LifecycleSet(bucket, [DeleteAfterOneDay], e)])
  }

  /** One pass of the `create_buckets` loop. A raising `bucket_exists` or
      `make_bucket` is caught by the except clause; the lifecycle is set only on
      a bucket just created whose name equals `BUCKETS_TO_CREATE[1]`. */
  function CreateStep(faults: set<(string, S3Op)>, name: string, st: StoreState): StoreState {
    if (name, S3Op.BucketExists) in faults then st
    else if name in st.buckets then st
    else if (name, S3Op.MakeBucket) in faults then st.(writes := st.writes + [Made(name, Some(AccessDenied))])
    else
      var made := StoreState(st.buckets[name := []], st.lifecycles, st.writes + [Made(name, None)]);
      if !(name != BucketsToCreate[1]) then LifecycleStep(faults, name, made) else made
  }

  /** The loop over `names`, in order. */
  function CreateAll(faults: set<(string, S3Op)>, names: seq<string>, st: StoreState): StoreState {
    if names == [] then st
    else CreateStep(faults, names[|names| - 1], CreateAll(faults, names[..|names| - 1], st))
  }

  /** A bucket the loop makes: listed, its existence check and its creation
      both answered. */
  predicate Creates(faults: set<(string, S3Op)>, name: string) {
    (name, S3Op.BucketExists) !in faults && (name, S3Op.MakeBucket) !in faults
  }

  lemma CreateAllSnoc(faults: set<(string, S3Op)>, names: seq<string>, name: string, st: StoreState)
    ensures CreateAll(faults, names + [name], st) == CreateStep(faults, name, CreateAll(faults, names, st))
  {
    assert (names + [name])[..|names|] == names;
  }

  /** The loop over the two names is the "data" pass, then the "clothes" pass. */
  lemma BucketsInOrder(faults: set<(string, S3Op)>, st: StoreState)
    ensures CreateAll(faults, BucketsToCreate, st) == CreateStep(faults, "clothes", CreateStep(faults, "data", st))
  {
    CreateAllSnoc(faults, [], "data", st);
    assert [] + ["data"] == ["data"];
    CreateAllSnoc(faults, ["data"], "clothes", st);
    assert ["data"] + ["clothes"] == BucketsToCreate;
  }

  /** The store holds a bucket after the loop exactly when it held it before or
      the loop made it; a bucket that existed keeps its objects and its
      lifecycle. An error on one bucket does not keep the loop from the next. */
  lemma {:induction false} CreateAllBuckets(faults: set<(string, S3Op)>, names: seq<string>, st: StoreState, b: string)
    ensures b in CreateAll(faults, names, st).buckets <==> b in st.buckets || (b in names && Creates(faults, b))
    ensures b in st.buckets ==> CreateAll(faults, names, st).buckets[b] == st.buckets[b]
    ensures b in st.buckets ==>
      (b in CreateAll(faults, names, st).lifecycles <==> b in st.lifecycles)
      && (b in st.lifecycles ==> CreateAll(faults, names, st).lifecycles[b] == st.lifecycles[b])
  {
    if names != [] {
      var init := names[..|names| - 1];
      CreateAllBuckets(faults, init, st, b);
      assert names == init + [names[|names| - 1]];
    }
  }

  /** The run of `create_buckets`: whether it makes "clothes" and whether the
      rule request is answered decide the lifecycles; nothing else gets one. */
  lemma LifecycleOnlyOnNewClothes(faults: set<(string, S3Op)>, st: StoreState)
    ensures CreateAll(faults, BucketsToCreate, st).lifecycles ==
      if "clothes" !in st.buckets && Creates(faults, "clothes")
         && (("clothes", S3Op.SetLifecycle) !in faults)
      then st.lifecycles["clothes" := [DeleteAfterOneDay]]
      else st.lifecycles
  {
    BucketsInOrder(faults, st);
    var afterData := CreateStep(faults, "data", st);
    assert afterData.lifecycles == st.lifecycles;
    assert ("clothes" in afterData.buckets) == ("clothes" in st.buckets);
  }

  predicate AllFor(writes: seq<Write>, bucket: string) {
    forall i :: 0 <= i < |writes| ==> writes[i].bucket == bucket
  }

  /** One pass appends requests on its own bucket only. */
  lemma StepWrites(faults: set<(string, S3Op)>, name: string, st: StoreState)
    ensures var after := CreateStep(faults, name, st);
      |st.writes| <= |after.writes| && after.writes[..|st.writes|] == st.writes
      && AllFor(after.writes[|st.writes|..], name)
  {
  }

  /** "data" is visited before "clothes": the requests on "data" come first. */
  lemma VisitsDataThenClothes(faults: set<(string, S3Op)>, st: StoreState)
    ensures var after := CreateAll(faults, BucketsToCreate, st);
      |st.writes| <= |after.writes| && after.writes[..|st.writes|] == st.writes
      && exists k :: |st.writes| <= k <= |after.writes|
                     && AllFor(after.writes[|st.writes|..k], "data")
                     && AllFor(after.writes[k..], "clothes")
  {
    BucketsInOrder(faults, st);
    var afterData := CreateStep(faults, "data", st);
    var after := CreateStep(faults, "clothes", afterData);
    StepWrites(faults, "data", st);
    StepWrites(faults, "clothes", afterData);
    var n, k := |st.writes|, |afterData.writes|;
    assert after.writes[n..k] == afterData.writes[n..];
  }

  /** Running the set-up a second time changes no bucket and no lifecycle; when
      no creation request failed, it sends no write either. */
  lemma SecondRunChangesNothing(faults: set<(string, S3Op)>, st: StoreState)
    ensures var once := CreateAll(faults, BucketsToCreate, st);
      var twice := CreateAll(faults, BucketsToCreate, once);
      && twice.buckets == once.buckets
      && twice.lifecycles == once.lifecycles
      && (("data", S3Op.MakeBucket) !in faults && ("clothes", S3Op.MakeBucket) !in faults ==> twice.writes == once.writes)
  {
    var once := CreateAll(faults, BucketsToCreate, st);
    BucketsInOrder(faults, once);
    CreateAllBuckets(faults, BucketsToCreate, st, "data");
    CreateAllBuckets(faults, BucketsToCreate, st, "clothes");
  }

  function State(store: ObjectStore): StoreState
    reads store
  {
    StoreState(store.buckets, store.lifecycles, store.writes)
  }

  /** `set_lifecycle(bucket_name)` */
  method SetLifecycle(store: ObjectStore, bucket: string)
    modifies store`lifecycles, store`writes
    ensures State(store) == LifecycleStep(store.faults, bucket, old(State(store)))
  {
    var e := store.SetBucketLifecycle(bucket, [DeleteAfterOneDay]);
    if e.Some? {
      // printed and swallowed
    }
  }

  /** `create_buckets()` */
  method CreateBuckets(store: ObjectStore)
    modifies store`buckets, store`lifecycles, store`writes
    ensures State(store) == CreateAll(store.faults, BucketsToCreate, old(State(store)))
  {
    ghost var st0 := State(store);
    for i := 0 to |BucketsToCreate|
      invariant State(store) == CreateAll(store.faults, BucketsToCreate[..i], st0)
    {
      var bucketName := BucketsToCreate[i];
      CreateAllSnoc(store.faults, BucketsToCreate[..i], bucketName, st0);
      assert BucketsToCreate[..i + 1] == BucketsToCreate[..i] + [bucketName];
      var exists_ := store.BucketExists(bucketName);
      if exists_.Failure? {
        // "Failed to create bucket", and on to the next name
        continue;
      }
      if !exists_.value {
        var e := store.MakeBucket(bucketName);
        if e.Some? {
          continue;
        }
        if !(bucketName != BucketsToCreate[1]) {
          SetLifecycle(store, bucketName);
        }
      }
    }
    assert BucketsToCreate[..|BucketsToCreate|] == BucketsToCreate;
  }
}
