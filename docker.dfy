/** A fake of the part of the Docker daemon the stage runners use: a set of volume
    names, the containers that exist, and a log of every call made, each with the
    error it raised. Which calls fail is fixed up front: `faults` maps a position
    in the log to the error the call made at that position raises, so any single
    call of a runner can be made to fail. */
module Docker {
  import opened Wrappers

  /** The docker SDK exceptions the runners tell apart. In the SDK ImageNotFound
      is a NotFound, and NotFound is an APIError; ContainerError (an attached run
      that exited non-zero) and everything else reach `except Exception`. */
  datatype DockerError = ImageNotFound | NotFound | APIError | ContainerError | OtherException

  /** What a runner reports before it returns: success, or the except clause
      (or existence check) that turned the run into `False`. */
  datatype Outcome = Succeeded | InputMissing | ImageMissing | ResourceMissing | DaemonError | UnexpectedError

  /** The first except clause that matches, in the order every runner lists them. */
  function Classify(e: DockerError): (o: Outcome)
    ensures o != Succeeded && o != InputMissing
    ensures o == UnexpectedError <==> e == ContainerError || e == OtherException
  {
    match e
    case ImageNotFound => ImageMissing
    case NotFound => ResourceMissing
    case APIError => DaemonError
    case ContainerError => UnexpectedError
    case OtherException => UnexpectedError
  }

  /** The object store's data volume, which no runner may remove. */
  const PersistentVolume: string := "virtualfit_minio-data"

  /** The bridge network the stage containers share with the object store. */
  const AppNetwork: string := "virtualfit_app-network"

  /** The environment variables handed to the store-facing containers. */
  const StoreEnvironment: seq<string> := ["MINIO_ENDPOINT", "MINIO_ACCESS_KEY", "MINIO_SECRET_KEY"]

  /** `volumes={volume: {"bind": target, "mode": mode}}` */
  datatype Bind = Bind(volume: string, target: string, mode: string)

  /** One entry of `inspect_container(...)["Mounts"]`: its "Type" and "Name". */
  datatype Mount = Mount(kind: string, name: string)

  /** The arguments of one `containers.run` call. `gpu` is the
      `DeviceRequest(count=-1, capabilities=[["gpu"]])` device request. */
  datatype ContainerSpec = ContainerSpec(
    image: string,
    entrypoint: Option<string>,
    command: string,
    gpu: bool,
    network: Option<string>,
    detach: bool,
    autoRemove: bool,
    binds: seq<Bind>,
    environment: seq<string>)

  type ContainerId = nat

  datatype Op =
    | Run(spec: ContainerSpec)
    | Wait(id: ContainerId)
    | Inspect(id: ContainerId)
    | RemoveContainer(id: ContainerId, force: bool)
    | ListVolumes
    | RemoveVolume(name: string)

  /** One call to the daemon and the error it raised, if any. */
  datatype Call = Call(op: Op, error: Option<DockerError>)

  function ErrorOf<T>(r: Result<T, DockerError>): Option<DockerError> {
    if r.Failure? then Some(r.error) else None
  }

  /** The volume names whose removal was attempted in `calls`, in call order. */
  function AttemptedRemovals(calls: seq<Call>): seq<string>
  {
    if calls == [] then []
    else
      var last := calls[|calls| - 1];
      AttemptedRemovals(calls[..|calls| - 1]) + (if last.op.RemoveVolume? then [last.op.name] else [])
  }

  /** The volume names whose removal succeeded in `calls`. */
  function SucceededRemovals(calls: seq<Call>): set<string>
  {
    if calls == [] then {}
    else
      var last := calls[|calls| - 1];
      SucceededRemovals(calls[..|calls| - 1])
        + (if last.op.RemoveVolume? && last.error.None? then {last.op.name} else {})
  }

  lemma AppendCall(calls: seq<Call>, c: Call)
    ensures AttemptedRemovals(calls + [c]) == AttemptedRemovals(calls) + (if c.op.RemoveVolume? then [c.op.name] else [])
    ensures SucceededRemovals(calls + [c])
         == SucceededRemovals(calls) + (if c.op.RemoveVolume? && c.error.None? then {c.op.name} else {})
  {
    assert (calls + [c])[..|calls|] == calls;
  }

  lemma NoRemovals(calls: seq<Call>)
    requires forall i :: 0 <= i < |calls| ==> !calls[i].op.RemoveVolume?
    ensures AttemptedRemovals(calls) == [] && SucceededRemovals(calls) == {}
  {
    if calls != [] {
      NoRemovals(calls[..|calls| - 1]);
    }
  }

  /** No call made at log positions `from` .. `from + n - 1` is set to fail. */
  predicate Unfaulted(faults: map<nat, DockerError>, from: nat, n: nat) {
    forall k :: from <= k < from + n ==> k !in faults
  }

  class Daemon {
    var volumes: set<string>
    var containers: set<ContainerId>
    var nextId: ContainerId
    var log: seq<Call>
    /** The call made at position k of the log raises faults[k]. */
    const faults: map<nat, DockerError>
    /** The volumes a started container creates while it runs. */
    const spawns: set<string>
    /** The mounts `inspect_container` reports for a started container. */
    const mounts: seq<Mount>
    /** The exit status every container finishes with. */
    const exitStatus: int

    ghost predicate Valid()
      reads this
    {
      forall c :: c in containers ==> c < nextId
    }

    constructor (volumes0: set<string>, faults0: map<nat, DockerError>, spawns0: set<string>,
                 mounts0: seq<Mount>, exitStatus0: int)
      ensures Valid()
      ensures volumes == volumes0 && containers == {} && log == []
      ensures faults == faults0 && spawns == spawns0 && mounts == mounts0 && exitStatus == exitStatus0
    {
      volumes, containers, nextId, log := volumes0, {}, 0, [];
      faults, spawns, mounts, exitStatus := faults0, spawns0, mounts0, exitStatus0;
    }

    /** The error the next call will raise, if it is one that fails. */
    function Fault(): Option<DockerError>
      reads this
    {
      if |log| in faults then Some(faults[|log|]) else None
    }

    /** `containers.run(...)`. A detached run returns the new container; an
        attached run with `remove=True` waits for the container, removes it, and
        raises ContainerError when it exited non-zero. Either way the container
        creates `spawns`. */
    method Run(spec: ContainerSpec) returns (r: Result<Option<ContainerId>, DockerError>)
      requires Valid()
      modifies this
      ensures Valid()
      ensures log == old(log) + [Call(Op.Run(spec), ErrorOf(r))]
      ensures old(Fault()).Some? ==>
        r == Failure(old(Fault()).value) && volumes == old(volumes) && containers == old(containers)
      ensures old(Fault()).None? && spec.detach ==>
        r.Success? && r.value.Some? && r.value.value !in old(containers)
        && containers == old(containers) + {r.value.value} && volumes == old(volumes) + spawns
      ensures old(Fault()).None? && !spec.detach ==>
        containers == old(containers) && volumes == old(volumes) + spawns
        && r == (if exitStatus == 0 then Success(None) else Failure(ContainerError))
    {
      var f := Fault();
      if f.Some? {
        r := Failure(f.value);
      } else if spec.detach {
        r := Success(Some(nextId));
        containers := containers + {nextId};
        nextId := nextId + 1;
        volumes := volumes + spawns;
      } else {
        volumes := volumes + spawns;
        r := if exitStatus == 0 then Success(None) else Failure(ContainerError);
      }
      log := log + [Call(Op.Run(spec), ErrorOf(r))];
    }

    /** `container.wait()`: blocks until the container exits, returns its status. */
    method Wait(id: ContainerId) returns (r: Result<int, DockerError>)
      requires Valid()
      modifies this`log
      ensures log == old(log) + [Call(Op.Wait(id), ErrorOf(r))]
      ensures r == if old(Fault()).Some? then Failure(old(Fault()).value)
                   else if id !in containers then Failure(NotFound)
                   else Success(exitStatus)
    {
      var f := Fault();
      r := if f.Some? then Failure(f.value) else if id !in containers then Failure(NotFound) else Success(exitStatus);
      log := log + [Call(Op.Wait(id), ErrorOf(r))];
    }

    /** `api.inspect_container(id)["Mounts"]` */
    method Inspect(id: ContainerId) returns (r: Result<seq<Mount>, DockerError>)
      requires Valid()
      modifies this`log
      ensures log == old(log) + [Call(Op.Inspect(id), ErrorOf(r))]
      ensures r == if old(Fault()).Some? then Failure(old(Fault()).value)
                   else if id !in containers then Failure(NotFound)
                   else Success(mounts)
    {
      var f := Fault();
      r := if f.Some? then Failure(f.value) else if id !in containers then Failure(NotFound) else Success(mounts);
      log := log + [Call(Op.Inspect(id), ErrorOf(r))];
    }

    /** `container.remove(force=force)` */
    method RemoveContainer(id: ContainerId, force: bool) returns (e: Option<DockerError>)
      requires Valid()
      modifies this`log, this`containers
      ensures Valid()
      ensures log == old(log) + [Call(Op.RemoveContainer(id, force), e)]
      ensures e == if old(Fault()).Some? then old(Fault())
                   else if id !in old(containers) then Some(NotFound)
                   else None
      ensures containers == if e.None? then old(containers) - {id} else old(containers)
    {
      var f := Fault();
      e := if f.Some? then f else if id !in containers then Some(NotFound) else None;
      if e.None? {
        containers := containers - {id};
      }
      log := log + [Call(Op.RemoveContainer(id, force), e)];
    }

    /** `set(volumes.list())`, as names (docker-py compares volumes by id, which
        is the name). */
    method ListVolumes() returns (r: Result<set<string>, DockerError>)
      requires Valid()
      modifies this`log
      ensures log == old(log) + [Call(Op.ListVolumes, ErrorOf(r))]
      ensures r == if old(Fault()).Some? then Failure(old(Fault()).value) else Success(volumes)
    {
      var f := Fault();
      r := if f.Some? then Failure(f.value) else Success(volumes);
      log := log + [Call(Op.ListVolumes, ErrorOf(r))];
    }

    /** `volume.remove()`, or `volumes.get(name).remove()`: NotFound when the
        volume is gone. */
    method RemoveVolume(name: string) returns (e: Option<DockerError>)
      requires Valid()
      modifies this`log, this`volumes
      ensures log == old(log) + [Call(Op.RemoveVolume(name), e)]
      ensures e == if old(Fault()).Some? then old(Fault())
                   else if name !in old(volumes) then Some(NotFound)
                   else None
      ensures volumes == if e.None? then old(volumes) - {name} else old(volumes)
    {
      var f := Fault();
      e := if f.Some? then f else if name !in volumes then Some(NotFound) else None;
      if e.None? {
        volumes := volumes - {name};
      }
      log := log + [Call(Op.RemoveVolume(name), e)];
    }
  }
}
