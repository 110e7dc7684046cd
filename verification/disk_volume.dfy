/** The disk volume-mount driver of the host agent
    (pkg/hostman/container/volume_mount/disk.go): where a pod disk appears
    on the host, and how it is connected and mounted for a container or
    disconnected and unmounted afterwards.

    The storage manager and the storage driver are abstract. `Storage` is
    what does not change while a volume is mounted: the storage path of
    every disk the manager knows, the disks whose storage driver resolves,
    the device node a connect yields for a path, and the operations the
    driver answers with an error. `State` is what the driver changes: the
    connected paths with their device nodes, the mounted mount points, and
    the trace of every operation issued, in order, failed or not. */
module DiskVolume {
  import opened Wrappers
  import Strings
  import ContainerModels

  /** The parts of a guest disk descriptor (`desc.SGuestDisk`) the driver
      reads. */
  datatype GuestDisk = GuestDisk(diskId: string, path: string, fs: string)

  /** The parts of the pod (`IPodInfo`) the driver reads. */
  datatype PodInfo = PodInfo(volumesDir: string, disks: seq<GuestDisk>)

  /** Operations issued to the storage driver and the mounter. */
  datatype Op =
    | CheckConnect(path: string)
    | ConnectDisk(path: string)
    | DisconnectDisk(path: string, mountPoint: string)
    | MountFs(device: string, mountPoint: string, fs: string)
    | UnmountFs(mountPoint: string)

  datatype Storage = Storage(
    paths: map<string, string>,
    drivers: set<string>,
    devices: map<string, string>,
    faults: set<Op>)

  datatype State = State(
    connected: map<string, string>,
    mounts: map<string, (string, string)>,
    trace: seq<Op>)

  datatype Reply = Reply(st: State, res: Result<()>)

  /** `GetRuntimeMountHostPath`: a disk volume lives under the pod's volumes
      directory, named after the disk id; a mount without a disk is an
      error. */
  function RuntimeMountHostPath(pod: PodInfo, vm: ContainerModels.VolumeMount): (r: Result<string>)
    ensures r.Err? <==> vm.disk.None?
    ensures r.Err? ==> r.error == NotEmpty
    ensures r.Ok? ==> r.value == Strings.PathJoin(pod.volumesDir, vm.disk.value.id)
  {
    match vm.disk
    case None => Err(NotEmpty)
    case Some(d) => Ok(Strings.PathJoin(pod.volumesDir, d.id))
  }

  /** Two mounts of different disks never share a host path. */
  lemma HostPathsDistinct(pod: PodInfo, a: ContainerModels.VolumeMount, b: ContainerModels.VolumeMount)
    requires pod.volumesDir != ""
    requires a.disk.Some? && b.disk.Some? && a.disk.value.id != "" && b.disk.value.id != ""
    requires a.disk.value.id != b.disk.value.id
    ensures RuntimeMountHostPath(pod, a) != RuntimeMountHostPath(pod, b)
  {
    if RuntimeMountHostPath(pod, a) == RuntimeMountHostPath(pod, b) {
      Strings.PathJoinInjective(pod.volumesDir, a.disk.value.id, b.disk.value.id);
    }
  }

  /** Index of the first pod disk with this id, if any. */
  function FirstWithId(disks: seq<GuestDisk>, id: string): (r: Option<nat>)
    ensures r.None? <==> forall k :: 0 <= k < |disks| ==> disks[k].diskId != id
    ensures r.Some? ==> r.value < |disks| && disks[r.value].diskId == id &&
                        forall k :: 0 <= k < r.value ==> disks[k].diskId != id
  {
    if |disks| == 0 then None
    else if disks[0].diskId == id then Some(0)
    else match FirstWithId(disks[1..], id)
      case None => None
      case Some(k) => Some(k + 1)
  }

  /** `getPodDisk`: the id must be set; the first pod disk carrying it is
      chosen, and the storage manager must know it. The source dereferences
      the mount's disk without a check, hence the precondition. */
  function PodDisk(pod: PodInfo, storage: Storage, vm: ContainerModels.VolumeMount): (r: Result<GuestDisk>)
    requires vm.disk.Some?
    ensures vm.disk.value.id == "" ==> r == Err(EmptyId)
    ensures vm.disk.value.id != "" && FirstWithId(pod.disks, vm.disk.value.id).None? ==> r == Err(NotFound)
    ensures r.Ok? <==> vm.disk.value.id != "" && FirstWithId(pod.disks, vm.disk.value.id).Some? &&
                       vm.disk.value.id in storage.paths
    ensures r.Ok? ==> r.value == pod.disks[FirstWithId(pod.disks, vm.disk.value.id).value] &&
                      r.value.diskId == vm.disk.value.id
  {
    var id := vm.disk.value.id;
    if id == "" then Err(EmptyId)
    else match FirstWithId(pod.disks, id)
      case None => Err(NotFound)
      case Some(k) => if id in storage.paths then Ok(pod.disks[k]) else Err(Rejected)
  }

  function Issue(st: State, op: Op): State
  {
    st.(trace := st.trace + [op])
  }

  /** Connects the disk at `path` unless it is connected already; the
      device node it is reachable at. */
  function Connect(storage: Storage, st: State, path: string): (r: (State, Result<string>))
    ensures path in st.connected ==> r == (st, Ok(st.connected[path]))
    ensures path !in st.connected ==> r.0.trace == st.trace + [ConnectDisk(path)]
    ensures r.1.Ok? <==> path in st.connected || (ConnectDisk(path) !in storage.faults && path in storage.devices)
    ensures r.1.Ok? ==> path in r.0.connected && r.0.connected[path] == r.1.value &&
                        r.0.connected == st.connected[path := r.1.value] && r.0.mounts == st.mounts
    ensures r.1.Err? ==> r.0.connected == st.connected && r.0.mounts == st.mounts
  {
    if path in st.connected then (st, Ok(st.connected[path]))
    else
      var issued := Issue(st, ConnectDisk(path));
      if ConnectDisk(path) in storage.faults || path !in storage.devices then (issued, Err(Rejected))
      else (issued.(connected := st.connected[path := storage.devices[path]]), Ok(storage.devices[path]))
  }

  /** `Mount`: find the disk and its driver, check whether it is connected,
      connect it if not, and mount the device at the pod's mount point for
      the disk (`mountPointOf` stands for `GetDiskMountPoint`) with the
      disk's file system. A failed lookup issues nothing. */
  function Mount(pod: PodInfo, storage: Storage, st: State, vm: ContainerModels.VolumeMount,
                 mountPointOf: string -> string): (r: Reply)
    requires vm.disk.Some?
    ensures PodDisk(pod, storage, vm).Err? ==> r == Reply(st, Err(PodDisk(pod, storage, vm).error))
    ensures PodDisk(pod, storage, vm).Ok? && vm.disk.value.id !in storage.drivers ==> r == Reply(st, Err(Unsupported))
    ensures r.res.Ok? ==>
              var gd := PodDisk(pod, storage, vm).value;
              var path := storage.paths[gd.diskId];
              var mp := mountPointOf(path);
              gd.diskId in storage.drivers &&
              path in r.st.connected && mp in r.st.mounts &&
              r.st.mounts == st.mounts[mp := (r.st.connected[path], gd.fs)] &&
              r.st.connected == st.connected[path := r.st.connected[path]] &&
              (path in st.connected ==> r.st.connected[path] == st.connected[path]) &&
              r.st.trace == st.trace + [CheckConnect(path)] +
                            (if path in st.connected then [] else [ConnectDisk(path)]) +
                            [MountFs(r.st.connected[path], mp, gd.fs)]
    ensures r.res.Ok? <==>
              PodDisk(pod, storage, vm).Ok? && vm.disk.value.id in storage.drivers &&
              var path := storage.paths[vm.disk.value.id];
              CheckConnect(path) !in storage.faults &&
              Connect(storage, st, path).1.Ok? &&
              MountFs(Connect(storage, st, path).1.value, mountPointOf(path),
                      PodDisk(pod, storage, vm).value.fs) !in storage.faults
  {
    match PodDisk(pod, storage, vm)
    case Err(e) => Reply(st, Err(e))
    case Ok(gd) =>
      if gd.diskId !in storage.drivers then Reply(st, Err(Unsupported))
      else
        var path := storage.paths[gd.diskId];
        var checked := Issue(st, CheckConnect(path));
        if CheckConnect(path) in storage.faults then Reply(checked, Err(Rejected))
        else
          var (connected, dev) := Connect(storage, checked, path);
          if dev.Err? then Reply(connected, Err(dev.error))
          else
            var mp := mountPointOf(path);
            var op := MountFs(dev.value, mp, gd.fs);
            var mounted := Issue(connected, op);
            if op in storage.faults then Reply(mounted, Err(Rejected))
            else Reply(mounted.(mounts := connected.mounts[mp := (dev.value, gd.fs)]), Ok(()))
  }

  /** `Unmount`: find the disk and its driver, check whether it is
      connected, disconnect it if so, then unmount the mount point. The
      disconnect is issued before the unmount, in the order the source
      issues them. */
  function Unmount(pod: PodInfo, storage: Storage, st: State, vm: ContainerModels.VolumeMount,
                   mountPointOf: string -> string): (r: Reply)
    requires vm.disk.Some?
    ensures PodDisk(pod, storage, vm).Err? ==> r == Reply(st, Err(PodDisk(pod, storage, vm).error))
    ensures PodDisk(pod, storage, vm).Ok? && vm.disk.value.id !in storage.drivers ==> r == Reply(st, Err(Unsupported))
    ensures r.res.Ok? <==>
              PodDisk(pod, storage, vm).Ok? && vm.disk.value.id in storage.drivers &&
              var path := storage.paths[vm.disk.value.id];
              CheckConnect(path) !in storage.faults &&
              (path in st.connected ==> DisconnectDisk(path, mountPointOf(path)) !in storage.faults) &&
              UnmountFs(mountPointOf(path)) !in storage.faults
    ensures r.res.Ok? ==>
              var path := storage.paths[vm.disk.value.id];
              var mp := mountPointOf(path);
              r.st.connected == st.connected - {path} && r.st.mounts == st.mounts - {mp} &&
              r.st.trace == st.trace + [CheckConnect(path)] +
                            (if path in st.connected then [DisconnectDisk(path, mp)] else []) +
                            [UnmountFs(mp)]
  {
    match PodDisk(pod, storage, vm)
    case Err(e) => Reply(st, Err(e))
    case Ok(gd) =>
      if gd.diskId !in storage.drivers then Reply(st, Err(Unsupported))
      else
        var path := storage.paths[gd.diskId];
        var checked := Issue(st, CheckConnect(path));
        if CheckConnect(path) in storage.faults then Reply(checked, Err(Rejected))
        else
          var mp := mountPointOf(path);
          var disconnected :=
            if path in st.connected then Issue(checked, DisconnectDisk(path, mp)).(connected := st.connected - {path})
            else checked;
          if path in st.connected && DisconnectDisk(path, mp) in storage.faults then
            Reply(Issue(checked, DisconnectDisk(path, mp)), Err(Rejected))
          else
            var unmounted := Issue(disconnected, UnmountFs(mp));
            if UnmountFs(mp) in storage.faults then Reply(unmounted, Err(Rejected))
            else Reply(unmounted.(mounts := st.mounts - {mp}), Ok(()))
  }

  /** Unmounting a volume just mounted disconnects its disk; when both
      succeed, and the disk was neither connected nor mounted before, the
      connected disks and mount points are as they were. */
  lemma UnmountUndoesMount(pod: PodInfo, storage: Storage, st: State, vm: ContainerModels.VolumeMount,
                           mountPointOf: string -> string)
    requires vm.disk.Some?
    requires Mount(pod, storage, st, vm, mountPointOf).res.Ok?
    ensures var mounted := Mount(pod, storage, st, vm, mountPointOf).st;
            var path := storage.paths[vm.disk.value.id];
            var r := Unmount(pod, storage, mounted, vm, mountPointOf);
            (r.res.Ok? ==> DisconnectDisk(path, mountPointOf(path)) in r.st.trace[|mounted.trace|..]) &&
            (r.res.Ok? && path !in st.connected && mountPointOf(path) !in st.mounts ==>
               r.st.connected == st.connected && r.st.mounts == st.mounts)
  {
    var mounted := Mount(pod, storage, st, vm, mountPointOf).st;
    var path := storage.paths[vm.disk.value.id];
    var r := Unmount(pod, storage, mounted, vm, mountPointOf);
    if r.res.Ok? {
      assert path in mounted.connected;
      assert r.st.trace[|mounted.trace|..] == [CheckConnect(path), DisconnectDisk(path, mountPointOf(path)),
                                               UnmountFs(mountPointOf(path))];
    }
  }
}
