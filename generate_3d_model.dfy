/** The body-model stage runners: each checks that its input exists on the API
    server's file system, then makes one attached `containers.run` call with
    `remove=True` and one read-write volume bind, and reports a boolean. */
module Generate3dModel {
  import opened Wrappers
  import opened Docker

  /** The container spec of the three runners' `containers.run` calls. */
  function AttachedSpec(image: string, command: string, volume: string, volumeBind: string): ContainerSpec {
    ContainerSpec(
      image := image,
      entrypoint := None,
      command := command,
      gpu := true,
      network := None,
      detach := false,
      autoRemove := true,
      binds := [Bind(volume, volumeBind, "rw")],
      environment := [])
  }

  /** A logged daemon call that is the runners' `containers.run`: a GPU device
      request, `remove=True`, the one volume mounted read-write at `volumeBind`,
      and `detach` left at its default False, so the runner waits for the
      container's exit; the default entrypoint and network, no extra
      environment. */
  predicate AttachedRun(op: Op, image: string, command: string, volume: string, volumeBind: string) {
    && op.Run?
    && op.spec.image == image && op.spec.command == command
    && !op.spec.detach && op.spec.autoRemove && op.spec.gpu
    && op.spec.binds == [Bind(volume, volumeBind, "rw")]
    && op.spec.entrypoint.None? && op.spec.network.None? && op.spec.environment == []
  }

  function KeypointsCommand(dataFolder: string): string {
    "/openpose/build/examples/openpose/openpose.bin "
    + "--image_dir " + dataFolder + "/images "
    + "--write_json " + dataFolder + "/keypoints "
    + "--face --hand --display 0 --render_pose 0"
  }

  function MeshCommand(gender: string, dataFolder: string): string {
    "python3 smplifyx/main.py "
    + "--config cfg_files/fit_smplx.yaml "
    + "--data_folder " + dataFolder + " "
    + "--output_folder " + dataFolder + "/smplify-x_results "
    + "--visualize=False "
    + "--gender=" + gender + " "
    + "--model_folder ../smplx/models "
    + "--vposer_ckpt ../vposer/V02_05 "
    + "--part_segm_fn smplx_parts_segm.pkl"
  }

  function SmoothCommand(objFilePath: string): string {
    "blender -b -P shade_smooth.py -- --obj " + objFilePath
  }

  /** The body every runner shares: when the input is absent, report it and
      touch nothing; otherwise make the one run and turn its error, if any,
      into the outcome of the first matching except clause. */
  method GuardedRun(client: Daemon, inputPresent: bool, spec: ContainerSpec) returns (ok: bool, outcome: Outcome)
    requires client.Valid() && !spec.detach
    modifies client
    ensures client.Valid()
    ensures ok <==> outcome == Succeeded
    ensures !inputPresent ==> !ok && outcome == InputMissing && client.log == old(client.log)
                              && client.volumes == old(client.volumes)
    ensures inputPresent ==>
      && |client.log| == |old(client.log)| + 1
      && client.log[..|old(client.log)|] == old(client.log)
      && client.log[|old(client.log)|].op == Op.Run(spec)
      && (ok <==> |old(client.log)| !in client.faults && client.exitStatus == 0)
      && (!ok ==> client.log[|old(client.log)|].error.Some?
                  && outcome == Classify(client.log[|old(client.log)|].error.value))
    ensures client.containers == old(client.containers)
  {
    if !inputPresent {
      return false, InputMissing;
    }
    var run := client.Run(spec);
    if run.Failure? {
      return false, Classify(run.error);
    }
    return true, Succeeded;
  }

  /** `generate_keypoints(client, data_folder, volume, volume_bind)`; `files` is
      the set of paths that exist on the API server. */
  method GenerateKeypoints(client: Daemon, files: set<string>, dataFolder: string, volume: string, volumeBind: string)
    returns (ok: bool, outcome: Outcome)
    requires client.Valid()
    modifies client
    ensures client.Valid()
    ensures ok <==> outcome == Succeeded
    ensures dataFolder + "/images" !in files ==>
      !ok && outcome == InputMissing && client.log == old(client.log) && client.volumes == old(client.volumes)
    ensures dataFolder + "/images" in files ==>
      && |client.log| == |old(client.log)| + 1
      && client.log[..|old(client.log)|] == old(client.log)
      && AttachedRun(client.log[|old(client.log)|].op, "openpose", KeypointsCommand(dataFolder), volume, volumeBind)
      && (ok <==> |old(client.log)| !in client.faults && client.exitStatus == 0)
      && (!ok ==> client.log[|old(client.log)|].error.Some?
                  && outcome == Classify(client.log[|old(client.log)|].error.value))
    ensures client.containers == old(client.containers)
  {
    ok, outcome := GuardedRun(client, dataFolder + "/images" in files,
                              AttachedSpec("openpose", KeypointsCommand(dataFolder), volume, volumeBind));
  }

  /** `generate_mesh(gender, client, data_folder, volume, volume_bind)` */
  method GenerateMesh(client: Daemon, files: set<string>, gender: string, dataFolder: string, volume: string, volumeBind: string)
    returns (ok: bool, outcome: Outcome)
    requires client.Valid()
    modifies client
    ensures client.Valid()
    ensures ok <==> outcome == Succeeded
    ensures dataFolder + "/keypoints" !in files ==>
      !ok && outcome == InputMissing && client.log == old(client.log) && client.volumes == old(client.volumes)
    ensures dataFolder + "/keypoints" in files ==>
      && |client.log| == |old(client.log)| + 1
      && client.log[..|old(client.log)|] == old(client.log)
      && AttachedRun(client.log[|old(client.log)|].op, "smplify-x", MeshCommand(gender, dataFolder), volume, volumeBind)
      && (ok <==> |old(client.log)| !in client.faults && client.exitStatus == 0)
      && (!ok ==> client.log[|old(client.log)|].error.Some?
                  && outcome == Classify(client.log[|old(client.log)|].error.value))
    ensures client.containers == old(client.containers)
  {
    ok, outcome := GuardedRun(client, dataFolder + "/keypoints" in files,
                              AttachedSpec("smplify-x", MeshCommand(gender, dataFolder), volume, volumeBind));
  }

  /** `shape_obj_smooth(obj_file_path, client, volume, volume_bind)` */
  method ShapeObjSmooth(client: Daemon, files: set<string>, objFilePath: string, volume: string, volumeBind: string)
    returns (ok: bool, outcome: Outcome)
    requires client.Valid()
    modifies client
    ensures client.Valid()
    ensures ok <==> outcome == Succeeded
    ensures objFilePath !in files ==>
      !ok && outcome == InputMissing && client.log == old(client.log) && client.volumes == old(client.volumes)
    ensures objFilePath in files ==>
      && |client.log| == |old(client.log)| + 1
      && client.log[..|old(client.log)|] == old(client.log)
      && AttachedRun(client.log[|old(client.log)|].op, "blender", SmoothCommand(objFilePath), volume, volumeBind)
      && (ok <==> |old(client.log)| !in client.faults && client.exitStatus == 0)
      && (!ok ==> client.log[|old(client.log)|].error.Some?
                  && outcome == Classify(client.log[|old(client.log)|].error.value))
    ensures client.containers == old(client.containers)
  {
    ok, outcome := GuardedRun(client, objFilePath in files,
                              AttachedSpec("blender", SmoothCommand(objFilePath), volume, volumeBind));
  }
}
