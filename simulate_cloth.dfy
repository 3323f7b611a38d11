/** The try-on runner: one detached blender container that fits a garment to a
    body model, after which the volumes the container had mounted are removed,
    the persistent store volume excepted. */
module SimulateCloth {
  import opened Wrappers
  import opened PyStr
  import opened Docker

  /** The command line the blender container runs: the script and its five
      arguments, in this order. */
  function TryOnCommand(objBucket: string, garmentBucket: string, objKey: string, garmentKey: string, gender: string): string {
    "python3" + " " + TryOnScript + " " + objBucket + " " + garmentBucket + " " + objKey + " " + garmentKey + " " + gender
  }

  const TryOnScript: string := "./minio_helpers/fetch_try_on.py"

  /** The `containers.run` call of `simulate_cloth`. */
  function TryOnSpec(objBucket: string, garmentBucket: string, objKey: string, garmentKey: string, gender: string): ContainerSpec {
    ContainerSpec(
      image := "blender:latest",
      entrypoint := None,
      command := TryOnCommand(objBucket, garmentBucket, objKey, garmentKey, gender),
      gpu := true,
      network := Some(AppNetwork),
      detach := true,
      autoRemove := false,
      binds := [],
      environment := StoreEnvironment)
  }

  /** The `sys.argv` the try-on script sees: the command split into words, less
      the interpreter. */
  function ScriptArgv(command: string): seq<string>
  {
    Split(command, ' ')[1..]
  }

  /** Seven words free of spaces, joined by single spaces, split back into themselves. */
  lemma SplitSevenWords(words: seq<string>)
    requires |words| == 7
    requires forall i :: 0 <= i < 7 ==> ' ' !in words[i]
    ensures Split(words[0] + " " + words[1] + " " + words[2] + " " + words[3] + " " + words[4] + " " + words[5] + " " + words[6], ' ')
         == words
  {
    var j5 := words[5] + [' '] + words[6];
    var j4 := words[4] + [' '] + j5;
    var j3 := words[3] + [' '] + j4;
    var j2 := words[2] + [' '] + j3;
    var j1 := words[1] + [' '] + j2;
    var j0 := words[0] + [' '] + j1;
    assert Join(words[6..], ' ') == words[6];
    assert Join(words[5..], ' ') == j5;
    assert Join(words[4..], ' ') == j4;
    assert Join(words[3..], ' ') == j3;
    assert Join(words[2..], ' ') == j2;
    assert Join(words[1..], ' ') == j1;
    assert Join(words, ' ') == j0;
    assert words[0] + " " + words[1] + " " + words[2] + " " + words[3] + " " + words[4] + " " + words[5] + " " + words[6] == j0;
    SplitJoin(words, ' ');
  }

  /** The command's words, interpreter first. */
  lemma TryOnCommandWords(objBucket: string, garmentBucket: string, objKey: string, garmentKey: string, gender: string)
    requires ' ' !in objBucket && ' ' !in garmentBucket && ' ' !in objKey && ' ' !in garmentKey && ' ' !in gender
    ensures Split(TryOnCommand(objBucket, garmentBucket, objKey, garmentKey, gender), ' ')
         == ["python3", "./minio_helpers/fetch_try_on.py", objBucket, garmentBucket, objKey, garmentKey, gender]
  {
    assert ' ' !in "python3" && ' ' !in TryOnScript;
    SplitSevenWords(["python3", TryOnScript, objBucket, garmentBucket, objKey, garmentKey, gender]);
  }

  /** With arguments free of spaces, the script receives its own name and the
      five arguments in order, six entries where it demands at least eight, so
      it stops at its usage check. */
  lemma TryOnArgv(objBucket: string, garmentBucket: string, objKey: string, garmentKey: string, gender: string)
    requires ' ' !in objBucket && ' ' !in garmentBucket && ' ' !in objKey && ' ' !in garmentKey && ' ' !in gender
    ensures ScriptArgv(TryOnCommand(objBucket, garmentBucket, objKey, garmentKey, gender))
         == ["./minio_helpers/fetch_try_on.py", objBucket, garmentBucket, objKey, garmentKey, gender]
    ensures |ScriptArgv(TryOnCommand(objBucket, garmentBucket, objKey, garmentKey, gender))| < 8
  {
    TryOnCommandWords(objBucket, garmentBucket, objKey, garmentKey, gender);
  }

  /** The names of the mounts of type "volume", in mount order. */
  function VolumeMountNames(mounts: seq<Mount>): seq<string>
  {
    if mounts == [] then []
    else
      var last := mounts[|mounts| - 1];
      VolumeMountNames(mounts[..|mounts| - 1]) + (if last.kind == "volume" then [last.name] else [])
  }

  /** A name is a candidate exactly when some volume mount carries it. */
  lemma {:induction false} VolumeMountNamesMembers(mounts: seq<Mount>, n: string)
    ensures n in VolumeMountNames(mounts) <==> Mount("volume", n) in mounts
  {
    if mounts != [] {
      var init := mounts[..|mounts| - 1];
      VolumeMountNamesMembers(init, n);
      assert mounts == init + [mounts[|mounts| - 1]];
    }
  }

  /** The first loop of `simulate_cloth`: gather the names of volume mounts. */
  method CollectVolumeNames(mounts: seq<Mount>) returns (names: seq<string>)
    ensures names == VolumeMountNames(mounts)
    ensures forall n :: n in names <==> Mount("volume", n) in mounts
  {
    names := [];
    for i := 0 to |mounts|
      invariant names == VolumeMountNames(mounts[..i])
    {
      assert mounts[..i + 1][..i] == mounts[..i];
      if mounts[i].kind == "volume" {
        names := names + [mounts[i].name];
      }
    }
    assert mounts[..|mounts|] == mounts;
    forall n
      ensures n in names <==> Mount("volume", n) in mounts
    {
      VolumeMountNamesMembers(mounts, n);
    }
  }

  predicate Removable(name: string) {
    name != PersistentVolume
  }

  /** The second loop of `simulate_cloth`: one removal attempt per listed name
      other than the persistent volume, in list order; a failed attempt is
      printed and the loop goes on. */
  method RemoveListedVolumes(client: Daemon, names: seq<string>) returns (ghost calls: seq<Call>)
    requires client.Valid()
    modifies client`volumes, client`log
    ensures client.log == old(client.log) + calls
    ensures forall i :: 0 <= i < |calls| ==> calls[i].op.RemoveVolume?
    ensures AttemptedRemovals(calls) == Filter(names, Removable)
    ensures client.volumes == old(client.volumes) - SucceededRemovals(calls)
    ensures PersistentVolume !in SucceededRemovals(calls)
  {
    calls := [];
    for i := 0 to |names|
      invariant client.log == old(client.log) + calls
      invariant forall j :: 0 <= j < |calls| ==> calls[j].op.RemoveVolume?
      invariant AttemptedRemovals(calls) == Filter(names[..i], Removable)
      invariant client.volumes == old(client.volumes) - SucceededRemovals(calls)
      invariant PersistentVolume !in SucceededRemovals(calls)
    {
      FilterSnoc(names[..i], names[i], Removable);
      assert names[..i + 1] == names[..i] + [names[i]];
      if names[i] != PersistentVolume {
        var failure := client.RemoveVolume(names[i]);
        AppendCall(calls, Call(Op.RemoveVolume(names[i]), failure));
        calls := calls + [Call(Op.RemoveVolume(names[i]), failure)];
      }
    }
    assert names[..|names|] == names;
  }

  /** The four calls `simulate_cloth` makes before its cleanup loop: run, wait,
      inspect and a forced remove of the one container. */
  predicate TryOnCalls(calls: seq<Call>, spec: ContainerSpec) {
    && |calls| == 4
    && calls[0].op == Op.Run(spec)
    && calls[1].op.Wait?
    && calls[2].op == Op.Inspect(calls[1].op.id)
    && calls[3].op == Op.RemoveContainer(calls[1].op.id, true)
    && (forall i :: 0 <= i < 4 ==> calls[i].error.None?)
  }

  /** Run, wait, inspect, force-remove: on success, the mounts inspected. */
  method RunTryOnContainer(client: Daemon, spec: ContainerSpec) returns (r: Result<seq<Mount>, DockerError>, ghost calls: seq<Call>)
    requires client.Valid() && spec.detach
    modifies client
    ensures client.Valid()
    ensures client.log == old(client.log) + calls
    ensures forall i :: 0 <= i < |calls| ==> !calls[i].op.RemoveVolume?
    ensures r.Success? <==> Unfaulted(client.faults, |old(client.log)|, 4)
    ensures r.Failure? ==> 1 <= |calls| <= 4 && calls[|calls| - 1].error == Some(r.error)
    ensures r.Failure? ==> old(client.volumes) <= client.volumes <= old(client.volumes) + client.spawns
    ensures r.Success? ==>
      && TryOnCalls(calls, spec)
      && r.value == client.mounts
      && client.volumes == old(client.volumes) + client.spawns
      && client.containers == old(client.containers)
  {
    ghost var start := |client.log|;
    var run := client.Run(spec);
    calls := [Call(Op.Run(spec), ErrorOf(run))];
    if run.Failure? {
      return Failure(run.error), calls;
    }
    var container := run.value.value;
    var status := client.Wait(container);
    calls := calls + [Call(Op.Wait(container), ErrorOf(status))];
    assert status.Success? <==> start + 1 !in client.faults;
    if status.Failure? {
      return Failure(status.error), calls;
    }
    var info := client.Inspect(container);
    calls := calls + [Call(Op.Inspect(container), ErrorOf(info))];
    assert info.Success? <==> start + 2 !in client.faults;
    if info.Failure? {
      return Failure(info.error), calls;
    }
    var removed := client.RemoveContainer(container, true);
    calls := calls + [Call(Op.RemoveContainer(container, true), removed)];
    assert removed.None? <==> start + 3 !in client.faults;
    if removed.Some? {
      return Failure(removed.value), calls;
    }
    r := Success(info.value);
  }

  /** `simulate_cloth(docker_client, obj_bucket_name, garment_bucket_name,
      obj_key, garment_key, gender)`. The container's exit status is not
      looked at. */
  method SimulateClothRun(client: Daemon, objBucket: string, garmentBucket: string, objKey: string,
                          garmentKey: string, gender: string)
    returns (ok: bool, outcome: Outcome)
    requires client.Valid()
    modifies client
    ensures client.Valid()
    ensures |old(client.log)| < |client.log| && client.log[..|old(client.log)|] == old(client.log)
    ensures ok <==> outcome == Succeeded
    ensures ok <==> Unfaulted(client.faults, |old(client.log)|, 4)
    // the persistent volume survives, whatever happens
    ensures PersistentVolume in old(client.volumes) ==> PersistentVolume in client.volumes
    ensures client.volumes <= old(client.volumes) + client.spawns
    ensures !ok ==>
      && |client.log| <= |old(client.log)| + 4
      && client.log[|client.log| - 1].error.Some?
      && outcome == Classify(client.log[|client.log| - 1].error.value)
      && AttemptedRemovals(client.log[|old(client.log)|..]) == []
      && old(client.volumes) <= client.volumes
    ensures ok ==>
      && |client.log| >= |old(client.log)| + 4
      && TryOnCalls(client.log[|old(client.log)|..|old(client.log)| + 4],
                    TryOnSpec(objBucket, garmentBucket, objKey, garmentKey, gender))
      && var cleanup := client.log[|old(client.log)| + 4..];
      && (forall i :: 0 <= i < |cleanup| ==> cleanup[i].op.RemoveVolume?)
      && AttemptedRemovals(cleanup) == Filter(VolumeMountNames(client.mounts), Removable)
      && client.volumes == (old(client.volumes) + client.spawns) - SucceededRemovals(cleanup)
      && client.containers == old(client.containers)
  {
    ghost var start := |client.log|;
    var info, calls := RunTryOnContainer(client, TryOnSpec(objBucket, garmentBucket, objKey, garmentKey, gender));
    assert client.log[start..] == calls;
    if info.Failure? {
      NoRemovals(calls);
      return false, Classify(info.error);
    }
    var volumeNames := CollectVolumeNames(info.value);
    ghost var cleanup := RemoveListedVolumes(client, volumeNames);
    assert client.log[start..start + 4] == calls;
    assert client.log[start + 4..] == cleanup;
    return true, Succeeded;
  }
}
