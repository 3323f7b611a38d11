/** A fake of the MinIO object store: buckets holding (name, bytes) objects in
    listing order, the lifecycle rules set on buckets, and a log of the writes.
    Reading calls (`bucket_exists`, `stat_object`, `get_object`, `list_objects`)
    are functions of the state; writing calls are methods that append to the
    log. A request on a (bucket, operation) pair in `faults` raises AccessDenied,
    and so does a request on a (bucket, key, operation) triple in `keyFaults`:
    the first kind fails every request of that operation on the bucket, the
    second only the requests on that one object. */
module Storage {
  import opened Wrappers

  newtype byte = x: int | 0 <= x < 256

  type Bytes = seq<byte>

  datatype StoredObject = StoredObject(name: string, data: Bytes)

  /** The `code` of a MinIO S3Error. */
  datatype S3Error = NoSuchBucket | NoSuchKey | BucketAlreadyOwnedByYou | AccessDenied

  datatype S3Op = BucketExists | MakeBucket | SetLifecycle | StatObject | PutObject | GetObject | ListObjects

  /** One rule of a bucket lifecycle configuration. */
  datatype LifecycleRule = LifecycleRule(id: string, enabled: bool, expirationDays: nat, prefix: string)

  /** A write request and the error it raised, if any. */
  datatype Write =
    | Made(bucket: string, error: Option<S3Error>)
    | LifecycleSet(bucket: string, rules: seq<LifecycleRule>, error: Option<S3Error>)
    | Put(bucket: string, key: string, error: Option<S3Error>)

  function Names(objs: seq<StoredObject>): (r: seq<string>)
    ensures |r| == |objs|
    ensures forall i :: 0 <= i < |objs| ==> r[i] == objs[i].name
  {
    if objs == [] then [] else [objs[0].name] + Names(objs[1..])
  }

  /** The bytes stored under `name`, if any. */
  function Lookup(objs: seq<StoredObject>, name: string): (r: Option<Bytes>)
    ensures r.None? <==> name !in Names(objs)
    ensures r.Some? ==> StoredObject(name, r.value) in objs
  {
    if objs == [] then None
    else if objs[0].name == name then Some(objs[0].data)
    else Lookup(objs[1..], name)
  }

  /** The objects after `put_object(name, data)`: an existing object is replaced
      where it is, a new one is listed last. */
  function Upsert(objs: seq<StoredObject>, name: string, data: Bytes): (r: seq<StoredObject>)
    ensures name in Names(objs) ==> |r| == |objs|
    ensures name !in Names(objs) ==> r == objs + [StoredObject(name, data)]
  {
    if objs == [] then [StoredObject(name, data)]
    else if objs[0].name == name then [StoredObject(name, data)] + objs[1..]
    else
      assert name in Names(objs) ==> name in Names(objs[1..]) by {
        if name in Names(objs) {
          var i :| 0 <= i < |objs| && Names(objs)[i] == name;
          assert i > 0;
          assert Names(objs[1..])[i - 1] == name;
        }
      }
      assert name !in Names(objs) ==> name !in Names(objs[1..]) by {
        if name in Names(objs[1..]) {
          var i :| 0 <= i < |objs| - 1 && Names(objs[1..])[i] == name;
          assert Names(objs)[i + 1] == name;
        }
      }
      assert (objs + [StoredObject(name, data)])[1..] == objs[1..] + [StoredObject(name, data)];
      [objs[0]] + Upsert(objs[1..], name, data)
  }

  /** After `put_object(name, data)` the store holds `data` under `name` and
      every other name keeps what it held. */
  lemma {:induction false} UpsertLookup(objs: seq<StoredObject>, name: string, data: Bytes, n: string)
    ensures Lookup(Upsert(objs, name, data), n) == if n == name then Some(data) else Lookup(objs, n)
  {
    if objs != [] && objs[0].name != name {
      UpsertLookup(objs[1..], name, data, n);
    }
  }

  /** The error a request on `bucket` raises before it looks at keys: a
      configured fault first, then a missing bucket. */
  function RequestError(faults: set<(string, S3Op)>, buckets: map<string, seq<StoredObject>>,
                        bucket: string, op: S3Op): Option<S3Error>
  {
    if (bucket, op) in faults then Some(AccessDenied)
    else if bucket !in buckets then Some(NoSuchBucket)
    else None
  }

  /** The error a request on object `key` of `bucket` raises before it looks
      at the object itself: a fault on that object first, then the bucket's. */
  function ObjectRequestError(faults: set<(string, S3Op)>, keyFaults: set<(string, string, S3Op)>,
                              buckets: map<string, seq<StoredObject>>,
                              bucket: string, key: string, op: S3Op): Option<S3Error>
  {
    if (bucket, key, op) in keyFaults then Some(AccessDenied)
    else RequestError(faults, buckets, bucket, op)
  }

  /** The bytes `get_object(bucket, key)` answers with, or the error it raises. */
  function ObjectIn(faults: set<(string, S3Op)>, keyFaults: set<(string, string, S3Op)>,
                    buckets: map<string, seq<StoredObject>>,
                    bucket: string, key: string): Result<Bytes, S3Error>
  {
    var e := ObjectRequestError(faults, keyFaults, buckets, bucket, key, S3Op.GetObject);
    if e.Some? then Failure(e.value)
    else
      var found := Lookup(buckets[bucket], key);
      if found.None? then Failure(NoSuchKey) else Success(found.value)
  }

  /** What `stat_object(bucket, key)` raises: None when the object exists. */
  function StatIn(faults: set<(string, S3Op)>, keyFaults: set<(string, string, S3Op)>,
                  buckets: map<string, seq<StoredObject>>,
                  bucket: string, key: string): Option<S3Error>
  {
    var e := ObjectRequestError(faults, keyFaults, buckets, bucket, key, S3Op.StatObject);
    if e.Some? then e
    else if key !in Names(buckets[bucket]) then Some(NoSuchKey)
    else None
  }

  class ObjectStore {
    var buckets: map<string, seq<StoredObject>>
    var lifecycles: map<string, seq<LifecycleRule>>
    var writes: seq<Write>
    /** Requests that raise AccessDenied: every request of an operation on a
        bucket, and the requests of an operation on one object. */
    const faults: set<(string, S3Op)>
    const keyFaults: set<(string, string, S3Op)>

    constructor (buckets0: map<string, seq<StoredObject>>, faults0: set<(string, S3Op)>,
                 keyFaults0: set<(string, string, S3Op)>)
      ensures buckets == buckets0 && lifecycles == map[] && writes == []
      ensures faults == faults0 && keyFaults == keyFaults0
    {
      buckets, lifecycles, writes, faults, keyFaults := buckets0, map[], [], faults0, keyFaults0;
    }

    /** The error a request on an existing or missing bucket raises before it
        looks at keys. */
    function BucketError(bucket: string, op: S3Op): Option<S3Error>
      reads this`buckets
    {
      RequestError(faults, buckets, bucket, op)
    }

    /** The error a request on object `key` of `bucket` raises before it looks
        at the object. */
    function ObjectError(bucket: string, key: string, op: S3Op): Option<S3Error>
      reads this`buckets
    {
      ObjectRequestError(faults, keyFaults, buckets, bucket, key, op)
    }

    /** `bucket_exists(bucket)` */
    function BucketExists(bucket: string): Result<bool, S3Error>
      reads this`buckets
    {
      if (bucket, S3Op.BucketExists) in faults then Failure(AccessDenied) else Success(bucket in buckets)
    }

    /** `stat_object(bucket, key)`: None when the object exists. */
    function StatObject(bucket: string, key: string): Option<S3Error>
      reads this`buckets
    {
      StatIn(faults, keyFaults, buckets, bucket, key)
    }

    /** `get_object(bucket, key).read()`, and the download of `fget_object`. */
    function GetObject(bucket: string, key: string): Result<Bytes, S3Error>
      reads this`buckets
    {
      ObjectIn(faults, keyFaults, buckets, bucket, key)
    }

    /** `list_objects(bucket, recursive=True)` */
    function ListObjects(bucket: string): Result<seq<StoredObject>, S3Error>
      reads this`buckets
    {
      var e := BucketError(bucket, S3Op.ListObjects);
      if e.Some? then Failure(e.value) else Success(buckets[bucket])
    }

    /** `make_bucket(bucket)` */
    method MakeBucket(bucket: string) returns (e: Option<S3Error>)
      modifies this`buckets, this`writes
      ensures e == if (bucket, S3Op.MakeBucket) in faults then Some(AccessDenied)
                   else if bucket in old(buckets) then Some(BucketAlreadyOwnedByYou)
                   else None
      ensures buckets == if e.None? then old(buckets)[bucket := []] else old(buckets)
      ensures writes == old(writes) + [Made(bucket, e)]
    {
      e := if (bucket, S3Op.MakeBucket) in faults then Some(AccessDenied)
           else if bucket in buckets then Some(BucketAlreadyOwnedByYou)
           else None;
      if e.None? {
        buckets := buckets[bucket := []];
      }
      writes := writes + [Made(bucket, e)];
    }

    /** `set_bucket_lifecycle(bucket, LifecycleConfig(rules))` */
    method SetBucketLifecycle(bucket: string, rules: seq<LifecycleRule>) returns (e: Option<S3Error>)
      modifies this`lifecycles, this`writes
      ensures e == old(BucketError(bucket, S3Op.SetLifecycle))
      ensures lifecycles == if e.None? then old(lifecycles)[bucket := rules] else old(lifecycles)
      ensures writes == old(writes) + [LifecycleSet(bucket, rules, e)]
    {
      e := BucketError(bucket, S3Op.SetLifecycle);
      if e.None? {
        lifecycles := lifecycles[bucket := rules];
      }
      writes := writes + [LifecycleSet(bucket, rules, e)];
    }

    /** `put_object(bucket, key, data, len)` and `fput_object(bucket, key, path)`
        once the local file is read. */
    method PutObject(bucket: string, key: string, data: Bytes) returns (e: Option<S3Error>)
      modifies this`buckets, this`writes
      ensures e == old(ObjectError(bucket, key, S3Op.PutObject))
      ensures buckets == if e.None? then old(buckets)[bucket := Upsert(old(buckets)[bucket], key, data)]
                         else old(buckets)
      ensures writes == old(writes) + [Put(bucket, key, e)]
    {
      e := ObjectError(bucket, key, S3Op.PutObject);
      if e.None? {
        buckets := buckets[bucket := Upsert(buckets[bucket], key, data)];
      }
      writes := writes + [Put(bucket, key, e)];
    }
  }
}
