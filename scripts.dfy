/** What the container-side helper scripts have in common: each runs an ordered
    list of steps against the object store and local tools, and exits with
    status 1 at the first step that fails, running none of the later ones. */
module Scripts {
  import opened Wrappers
  import opened Storage

  datatype Step =
    | CheckBucket(bucket: string)                          // bucket_exists; False or an S3Error exits
    | CheckGender(gender: string)                          // not in ["male", "female"] exits
    | ListBucket(bucket: string)                           // list_objects; an S3Error exits
    | Fetch(bucket: string, key: string, localPath: string)   // fget_object
    | RunTool(argv: seq<string>)                           // subprocess.run(argv, check=True)
    | Upload(bucket: string, key: string, localPath: string)  // fput_object
    | Cleanup(dirs: seq<string>)                           // shutil.rmtree of each

  /** How a script ends: falling off the end (status 0), `sys.exit(1)`, or an
      exception nothing catches (status 1 with a traceback). */
  datatype Exit = Completed | ExitOne | Uncaught(exception: string)

  function ExitStatus(e: Exit): int {
    if e.Completed? then 0 else 1
  }

  /** Everything the steps' outcomes depend on: the store as the script finds
      it, the tool command lines that fail, the files the tools leave behind,
      and whether removing the work directories fails. */
  datatype World = World(faults: set<(string, S3Op)>, keyFaults: set<(string, string, S3Op)>,
                         buckets: map<string, seq<StoredObject>>,
                         failingTools: set<seq<string>>, outputs: map<string, Bytes>,
                         cleanupFails: bool)

  /** Whether a step succeeds. Uploads and fetches see the bucket set as the
      script found it, which uploads do not change. */
  predicate StepOk(w: World, s: Step) {
    match s
    case CheckBucket(b) => (b, S3Op.BucketExists) !in w.faults && b in w.buckets
    case CheckGender(g) => g == "male" || g == "female"
    case ListBucket(b) => RequestError(w.faults, w.buckets, b, S3Op.ListObjects).None?
    case Fetch(b, k, _) => ObjectIn(w.faults, w.keyFaults, w.buckets, b, k).Success?
    case RunTool(argv) => argv !in w.failingTools
    case Upload(b, k, p) => p in w.outputs && ObjectRequestError(w.faults, w.keyFaults, w.buckets, b, k, S3Op.PutObject).None?
    case Cleanup(_) => !w.cleanupFails
  }

  /** The index of the first failing step, or the length of the plan. */
  function FirstFailure(w: World, plan: seq<Step>): (r: nat)
    ensures r <= |plan|
    ensures forall i :: 0 <= i < r ==> StepOk(w, plan[i])
    ensures r < |plan| ==> !StepOk(w, plan[r])
  {
    if plan == [] then 0
    else if !StepOk(w, plan[0]) then 0
    else 1 + FirstFailure(w, plan[1..])
  }

  predicate Succeeds(w: World, plan: seq<Step>) {
    FirstFailure(w, plan) == |plan|
  }

  /** The steps a script attempts: the plan up to and including the first
      failing step. Only the last attempted step can have failed, and it failed
      exactly when the plan does not succeed. */
  function Attempted(w: World, plan: seq<Step>): (r: seq<Step>)
    ensures |r| <= |plan| && r == plan[..|r|]
    ensures forall i :: 0 <= i < |r| - 1 ==> StepOk(w, r[i])
    ensures Succeeds(w, plan) <==> r == plan && forall i :: 0 <= i < |r| ==> StepOk(w, r[i])
    ensures !Succeeds(w, plan) ==> r != [] && !StepOk(w, r[|r| - 1])
  {
    var k := FirstFailure(w, plan);
    if k == |plan| then plan else plan[..k + 1]
  }

  /** A step at index `j` is reached exactly when every earlier step succeeds. */
  lemma AttemptedReaches(w: World, plan: seq<Step>, j: nat)
    requires j < |plan|
    ensures j < |Attempted(w, plan)| <==> forall i :: 0 <= i < j ==> StepOk(w, plan[i])
  {
    var k := FirstFailure(w, plan);
    if forall i :: 0 <= i < j ==> StepOk(w, plan[i]) {
      assert k >= j;
    }
  }

  /** The effect of one step on the bucket contents and the write log: an upload
      of a file that is present sends one request; nothing else writes. */
  function ApplyStep(w: World, s: Step, buckets: map<string, seq<StoredObject>>, writes: seq<Write>)
    : (map<string, seq<StoredObject>>, seq<Write>)
  {
    if s.Upload? && s.localPath in w.outputs then
      var e := ObjectRequestError(w.faults, w.keyFaults, buckets, s.bucket, s.key, S3Op.PutObject);
      (if e.None? then buckets[s.bucket := Upsert(buckets[s.bucket], s.key, w.outputs[s.localPath])] else buckets,
       writes + [Put(s.bucket, s.key, e)])
    else (buckets, writes)
  }

  function Apply(w: World, steps: seq<Step>, buckets: map<string, seq<StoredObject>>, writes: seq<Write>)
    : (map<string, seq<StoredObject>>, seq<Write>)
  {
    if steps == [] then (buckets, writes)
    else
      var before := Apply(w, steps[..|steps| - 1], buckets, writes);
      ApplyStep(w, steps[|steps| - 1], before.0, before.1)
  }

  lemma {:induction false} ApplyKeepsBucketNames(w: World, steps: seq<Step>, buckets: map<string, seq<StoredObject>>, writes: seq<Write>)
    ensures Apply(w, steps, buckets, writes).0.Keys == buckets.Keys
  {
    if steps != [] {
      ApplyKeepsBucketNames(w, steps[..|steps| - 1], buckets, writes);
    }
  }

  /** Steps without an upload write nothing. */
  lemma {:induction false} ApplyWithoutUploads(w: World, steps: seq<Step>, buckets: map<string, seq<StoredObject>>, writes: seq<Write>)
    requires forall i :: 0 <= i < |steps| ==> !steps[i].Upload?
    ensures Apply(w, steps, buckets, writes) == (buckets, writes)
  {
    if steps != [] {
      ApplyWithoutUploads(w, steps[..|steps| - 1], buckets, writes);
    }
  }

  lemma {:induction false} ApplyAppend(w: World, a: seq<Step>, b: seq<Step>, buckets: map<string, seq<StoredObject>>, writes: seq<Write>)
    ensures var mid := Apply(w, a, buckets, writes);
      Apply(w, a + b, buckets, writes) == Apply(w, b, mid.0, mid.1)
    decreases |b|
  {
    if b == [] {
      assert a + b == a;
    } else {
      var init := b[..|b| - 1];
      ApplyAppend(w, a, init, buckets, writes);
      assert (a + b)[..|a + b| - 1] == a + init;
    }
  }

  /** Steps with one upload among them write what that upload writes. */
  lemma ApplyOneUpload(w: World, steps: seq<Step>, k: nat, buckets: map<string, seq<StoredObject>>, writes: seq<Write>)
    requires k < |steps|
    requires forall i :: 0 <= i < |steps| && i != k ==> !steps[i].Upload?
    ensures Apply(w, steps, buckets, writes) == ApplyStep(w, steps[k], buckets, writes)
  {
    var before, after := steps[..k], steps[k + 1..];
    assert steps == before + [steps[k]] + after;
    ApplyWithoutUploads(w, before, buckets, writes);
    ApplyAppend(w, before, [steps[k]], buckets, writes);
    var mid := ApplyStep(w, steps[k], buckets, writes);
    assert Apply(w, before + [steps[k]], buckets, writes) == mid;
    ApplyAppend(w, before + [steps[k]], after, buckets, writes);
    ApplyWithoutUploads(w, after, mid.0, mid.1);
  }

  /** Steps with two uploads among them write what the first and then the
      second upload writes. */
  lemma ApplyTwoUploads(w: World, steps: seq<Step>, k1: nat, k2: nat, buckets: map<string, seq<StoredObject>>,
                        writes: seq<Write>)
    requires k1 < k2 < |steps|
    requires forall i :: 0 <= i < |steps| && i != k1 && i != k2 ==> !steps[i].Upload?
    ensures var mid := ApplyStep(w, steps[k1], buckets, writes);
      Apply(w, steps, buckets, writes) == ApplyStep(w, steps[k2], mid.0, mid.1)
  {
    var a, b := steps[..k2], steps[k2..];
    assert steps == a + b;
    ApplyAppend(w, a, b, buckets, writes);
    ApplyOneUpload(w, a, k1, buckets, writes);
    var mid := ApplyStep(w, steps[k1], buckets, writes);
    ApplyOneUpload(w, b, 0, mid.0, mid.1);
  }

  /** A plan that succeeds and uploads once stores the uploaded file under its
      key, leaves every other object of the store as it was, and sends exactly
      one write request. */
  lemma SucceededUpload(w: World, plan: seq<Step>, k: nat, writes: seq<Write>)
    requires Succeeds(w, plan)
    requires k < |plan| && plan[k].Upload?
    requires forall i :: 0 <= i < |plan| && i != k ==> !plan[i].Upload?
    ensures var u, after := plan[k], Apply(w, plan, w.buckets, writes);
      && u.localPath in w.outputs
      && u.bucket in w.buckets && after.0.Keys == w.buckets.Keys
      && Lookup(after.0[u.bucket], u.key) == Some(w.outputs[u.localPath])
      && (forall n :: n != u.key ==> Lookup(after.0[u.bucket], n) == Lookup(w.buckets[u.bucket], n))
      && (forall b :: b in w.buckets && b != u.bucket ==> after.0[b] == w.buckets[b])
      && after.1 == writes + [Put(u.bucket, u.key, None)]
  {
    var u := plan[k];
    assert StepOk(w, u);
    ApplyOneUpload(w, plan, k, w.buckets, writes);
    var data := w.outputs[u.localPath];
    forall n
      ensures Lookup(Upsert(w.buckets[u.bucket], u.key, data), n)
           == if n == u.key then Some(data) else Lookup(w.buckets[u.bucket], n)
    {
      UpsertLookup(w.buckets[u.bucket], u.key, data, n);
    }
  }

  /** A plan that succeeds and uploads twice into one bucket stores both files,
      the second winning when the keys coincide, leaves every other object and
      every other bucket as it was, and sends the two requests in order. */
  lemma SucceededTwoUploads(w: World, plan: seq<Step>, k1: nat, k2: nat, writes: seq<Write>)
    requires Succeeds(w, plan)
    requires k1 < k2 < |plan| && plan[k1].Upload? && plan[k2].Upload? && plan[k1].bucket == plan[k2].bucket
    requires forall i :: 0 <= i < |plan| && i != k1 && i != k2 ==> !plan[i].Upload?
    ensures var u1, u2, after := plan[k1], plan[k2], Apply(w, plan, w.buckets, writes);
      && u1.localPath in w.outputs && u2.localPath in w.outputs
      && u1.bucket in w.buckets && after.0.Keys == w.buckets.Keys
      && Lookup(after.0[u1.bucket], u2.key) == Some(w.outputs[u2.localPath])
      && (u1.key != u2.key ==> Lookup(after.0[u1.bucket], u1.key) == Some(w.outputs[u1.localPath]))
      && (forall n :: n != u1.key && n != u2.key ==> Lookup(after.0[u1.bucket], n) == Lookup(w.buckets[u1.bucket], n))
      && (forall b :: b in w.buckets && b != u1.bucket ==> after.0[b] == w.buckets[b])
      && after.1 == writes + [Put(u1.bucket, u1.key, None), Put(u1.bucket, u2.key, None)]
  {
    var u1, u2 := plan[k1], plan[k2];
    assert StepOk(w, u1) && StepOk(w, u2);
    ApplyTwoUploads(w, plan, k1, k2, w.buckets, writes);
    TwoUploadSteps(w, u1, u2, writes);
    TwoUpsertsLookup(w.buckets[u1.bucket], u1.key, w.outputs[u1.localPath], u2.key, w.outputs[u2.localPath]);
  }

  /** Two successful uploads into one bucket, one after the other. */
  lemma TwoUploadSteps(w: World, u1: Step, u2: Step, writes: seq<Write>)
    requires u1.Upload? && u2.Upload? && u1.bucket == u2.bucket && StepOk(w, u1) && StepOk(w, u2)
    ensures var mid := ApplyStep(w, u1, w.buckets, writes);
      ApplyStep(w, u2, mid.0, mid.1)
      == (w.buckets[u1.bucket := Upsert(Upsert(w.buckets[u1.bucket], u1.key, w.outputs[u1.localPath]),
                                        u2.key, w.outputs[u2.localPath])],
          writes + [Put(u1.bucket, u1.key, None), Put(u1.bucket, u2.key, None)])
  {
    var b := u1.bucket;
    var once := Upsert(w.buckets[b], u1.key, w.outputs[u1.localPath]);
    var twice := Upsert(once, u2.key, w.outputs[u2.localPath]);
    var mid := ApplyStep(w, u1, w.buckets, writes);
    assert mid == (w.buckets[b := once], writes + [Put(b, u1.key, None)]);
    assert ObjectRequestError(w.faults, w.keyFaults, mid.0, b, u2.key, S3Op.PutObject).None?;
    assert mid.0[b] == once;
    assert mid.0[b := twice] == w.buckets[b := twice];
    assert mid.1 + [Put(b, u2.key, None)] == writes + [Put(b, u1.key, None), Put(b, u2.key, None)];
  }

  /** Two uploads into one bucket: the second key holds the second bytes, the
      first key the first bytes unless the second overwrote it, and every other
      name keeps what it held. */
  lemma TwoUpsertsLookup(objs: seq<StoredObject>, k1: string, d1: Bytes, k2: string, d2: Bytes)
    ensures var after := Upsert(Upsert(objs, k1, d1), k2, d2);
      && Lookup(after, k2) == Some(d2)
      && (k1 != k2 ==> Lookup(after, k1) == Some(d1))
      && forall n :: n != k1 && n != k2 ==> Lookup(after, n) == Lookup(objs, n)
  {
    forall n
      ensures Lookup(Upsert(Upsert(objs, k1, d1), k2, d2), n)
           == if n == k2 then Some(d2) else if n == k1 then Some(d1) else Lookup(objs, n)
    {
      UpsertLookup(Upsert(objs, k1, d1), k2, d2, n);
      UpsertLookup(objs, k1, d1, n);
    }
  }

  /** The requests of a run whose every upload succeeds: one per upload, in
      order. */
  function UploadRequests(steps: seq<Step>): seq<Write> {
    if steps == [] then []
    else
      var last := steps[|steps| - 1];
      UploadRequests(steps[..|steps| - 1]) + (if last.Upload? then [Put(last.bucket, last.key, None)] else [])
  }

  /** Some step uploads into `bucket` under `key`. */
  predicate Uploads(steps: seq<Step>, bucket: string, key: string) {
    exists i :: 0 <= i < |steps| && steps[i].Upload? && steps[i].bucket == bucket && steps[i].key == key
  }

  /** Steps that all succeed send one request per upload, store something
      under every key they upload to, and leave every other object of the
      bucket as it was. */
  lemma {:induction false} SucceededWrites(w: World, steps: seq<Step>, bucket: string,
                                           buckets: map<string, seq<StoredObject>>, writes: seq<Write>)
    requires forall i :: 0 <= i < |steps| ==> StepOk(w, steps[i])
    requires buckets.Keys == w.buckets.Keys && bucket in buckets
    ensures var after := Apply(w, steps, buckets, writes);
      && after.0.Keys == buckets.Keys
      && after.1 == writes + UploadRequests(steps)
      && (forall n :: !Uploads(steps, bucket, n) ==> Lookup(after.0[bucket], n) == Lookup(buckets[bucket], n))
      && (forall n :: Uploads(steps, bucket, n) ==> Lookup(after.0[bucket], n).Some?)
  {
    if steps != [] {
      var init, last := steps[..|steps| - 1], steps[|steps| - 1];
      SucceededWrites(w, init, bucket, buckets, writes);
      var before := Apply(w, init, buckets, writes);
      ApplyKeepsBucketNames(w, init, buckets, writes);
      forall n
        ensures Uploads(steps, bucket, n) <==>
          Uploads(init, bucket, n) || (last.Upload? && last.bucket == bucket && last.key == n)
      {
        if Uploads(steps, bucket, n) {
          var i :| 0 <= i < |steps| && steps[i].Upload? && steps[i].bucket == bucket && steps[i].key == n;
          if i < |init| { assert init[i] == steps[i]; }
        }
        if Uploads(init, bucket, n) {
          var i :| 0 <= i < |init| && init[i].Upload? && init[i].bucket == bucket && init[i].key == n;
          assert steps[i] == init[i];
        }
        if last.Upload? && last.bucket == bucket && last.key == n {
          assert steps[|steps| - 1] == last;
        }
      }
      if last.Upload? {
        assert StepOk(w, last);
        var data := w.outputs[last.localPath];
        assert ObjectRequestError(w.faults, w.keyFaults, before.0, last.bucket, last.key, S3Op.PutObject).None?;
        if last.bucket == bucket {
          forall n ensures Lookup(Upsert(before.0[bucket], last.key, data), n)
                           == if n == last.key then Some(data) else Lookup(before.0[bucket], n)
          {
            UpsertLookup(before.0[bucket], last.key, data, n);
          }
        }
      }
    }
  }

  /** No step fetches after a step has uploaded. */
  predicate FetchesFirst(plan: seq<Step>) {
    forall i, j :: 0 <= i < j < |plan| && plan[i].Upload? ==> !plan[j].Fetch?
  }

  /** Every fetch comes before position `k` and every upload at or after it. */
  lemma FetchesBefore(plan: seq<Step>, k: nat)
    requires forall i :: 0 <= i < |plan| && i < k ==> !plan[i].Upload?
    requires forall j :: 0 <= j < |plan| && j >= k ==> !plan[j].Fetch?
    ensures FetchesFirst(plan)
  {
  }

  /** One step against the store. */
  method Perform(store: ObjectStore, w: World, step: Step) returns (ok: bool)
    requires store.faults == w.faults && store.keyFaults == w.keyFaults && store.buckets.Keys == w.buckets.Keys
    requires step.Fetch? ==> store.buckets == w.buckets
    modifies store`buckets, store`writes
    ensures ok == StepOk(w, step)
    ensures (store.buckets, store.writes) == ApplyStep(w, step, old(store.buckets), old(store.writes))
  {
    match step
    case CheckBucket(b) =>
      var exists_ := store.BucketExists(b);
      ok := exists_.Success? && exists_.value;
    case CheckGender(g) =>
      ok := g in ["male", "female"];
    case ListBucket(b) =>
      var objects := store.ListObjects(b);
      ok := objects.Success?;
    case Fetch(b, k, _) =>
      var data := store.GetObject(b, k);
      ok := data.Success?;
    case RunTool(argv) =>
      ok := argv !in w.failingTools;
    case Upload(b, k, p) =>
      if p !in w.outputs {
        ok := false;
      } else {
        var e := store.PutObject(b, k, w.outputs[p]);
        ok := e.None?;
      }
    case Cleanup(_) =>
      ok := !w.cleanupFails;
  }

  /** The first steps of the plan, all of which succeeded. */
  predicate RanCleanly(w: World, plan: seq<Step>, i: nat) {
    i <= |plan| && forall j :: 0 <= j < i ==> StepOk(w, plan[j])
  }

  /** Runs the plan until a step fails: the shape shared by every script. */
  method RunPlan(store: ObjectStore, w: World, plan: seq<Step>) returns (trace: seq<Step>, ok: bool)
    requires store.faults == w.faults && store.keyFaults == w.keyFaults && store.buckets == w.buckets
    requires FetchesFirst(plan)
    modifies store`buckets, store`writes
    ensures trace == Attempted(w, plan)
    ensures ok <==> Succeeds(w, plan)
    ensures (store.buckets, store.writes) == Apply(w, trace, old(store.buckets), old(store.writes))
  {
    ghost var buckets0, writes0 := store.buckets, store.writes;
    trace := [];
    for i := 0 to |plan|
      invariant trace == plan[..i] && RanCleanly(w, plan, i)
      invariant (store.buckets, store.writes) == Apply(w, trace, buckets0, writes0)
      invariant store.buckets.Keys == w.buckets.Keys
      invariant (forall j :: 0 <= j < i ==> !plan[j].Upload?) ==> store.buckets == w.buckets
    {
      var stepOk := Perform(store, w, plan[i]);
      assert (trace + [plan[i]])[..i] == trace;
      trace := trace + [plan[i]];
      assert plan[..i + 1] == trace;
      ApplyKeepsBucketNames(w, trace, buckets0, writes0);
      if !stepOk {
        assert FirstFailure(w, plan) == i;
        return trace, false;
      }
    }
    assert FirstFailure(w, plan) == |plan|;
    assert plan[..|plan|] == plan;
    return trace, true;
  }
}
