/** The local raw-disk container device manager
    (pkg/hostman/storageman/container_storage/local_raw.go): a raw disk
    image is exposed to a container by attaching it to a loop device.

    The storage manager and the loop-device driver are abstract. `LoopHost`
    holds the disks the manager finds by path (with the format it reports,
    which can itself fail), the free loop devices in the order the driver
    hands them out, the attached loop devices with the image behind each,
    and the image paths whose attach fails. */
module LocalRaw {
  import opened Wrappers
  import Apis
  import Cri

  /** A disk the storage manager knows: its image path and its format. */
  datatype LocalDisk = LocalDisk(path: string, format: Result<string>)

  datatype LoopHost = LoopHost(
    disks: map<string, LocalDisk>,
    free: seq<string>,
    attached: map<string, string>,
    faults: set<string>)

  datatype Reply = Reply(host: LoopHost, res: Result<seq<Cri.Device>>)

  /** `GetType`. */
  function DeviceType(): Apis.DeviceType
  {
    Apis.LocalRawType
  }

  /** `NewDevices`: raw disks are never probed as isolated devices, so the
      call yields no device list for any input. */
  function NewDevices(dev: Apis.ContainerDevice): (r: Result<()>)
    ensures r == Err(Unsupported)
  {
    Err(Unsupported)
  }

  /** The loop driver's books are consistent: no free device is listed
      twice, and none is both free and attached. */
  predicate WellFormed(h: LoopHost)
  {
    (forall i, j :: 0 <= i < j < |h.free| ==> h.free[i] != h.free[j]) &&
    (forall i :: 0 <= i < |h.free| ==> h.free[i] !in h.attached)
  }

  /** `NewContainerDevices`: the disk must be found by its path, its format
      read and equal to "raw"; its image is then attached to the first free
      loop device, which the container sees at the requested path with
      read, write and mknod permission. Every failure leaves the host as it
      was. */
  function NewContainerDevices(h: LoopHost, dev: Apis.ContainerDevice): (r: Reply)
    ensures r.res.Ok? <==>
              dev.path in h.disks && h.disks[dev.path].format == Ok("raw") &&
              h.disks[dev.path].path !in h.faults && |h.free| > 0
    ensures r.res.Err? ==> r.host == h
    ensures dev.path !in h.disks ==> r.res == Err(NotFound)
    ensures dev.path in h.disks && h.disks[dev.path].format.Err? ==> r.res == h.disks[dev.path].format.PropagateFailure()
    ensures dev.path in h.disks && h.disks[dev.path].format.Ok? && h.disks[dev.path].format.value != "raw" ==>
              r.res == Err(InvalidFormat)
    ensures r.res.Ok? ==>
              r.res.value == [Cri.Device(dev.containerPath, h.free[0], "rwm")] &&
              r.host == h.(free := h.free[1..], attached := h.attached[h.free[0] := h.disks[dev.path].path])
  {
    if dev.path !in h.disks then Reply(h, Err(NotFound))
    else
      var disk := h.disks[dev.path];
      match disk.format
      case Err(e) => Reply(h, Err(e))
      case Ok(format) =>
        if format != "raw" then Reply(h, Err(InvalidFormat))
        else if disk.path in h.faults || |h.free| == 0 then Reply(h, Err(Rejected))
        else
          var loop := h.free[0];
          Reply(h.(free := h.free[1..], attached := h.attached[loop := disk.path]),
                Ok([Cri.Device(dev.containerPath, loop, "rwm")]))
  }

  /** Attaching keeps the books consistent, and every successful attach
      hands out a loop device that was not attached before. */
  lemma NewContainerDevicesWellFormed(h: LoopHost, dev: Apis.ContainerDevice)
    requires WellFormed(h)
    ensures WellFormed(NewContainerDevices(h, dev).host)
    ensures var r := NewContainerDevices(h, dev);
            r.res.Ok? ==> r.res.value[0].hostPath !in h.attached && r.res.value[0].hostPath in r.host.attached
  {
    var r := NewContainerDevices(h, dev);
    if r.res.Ok? {
      var g := r.host;
      forall i | 0 <= i < |g.free|
        ensures g.free[i] !in g.attached
      {
        assert g.free[i] == h.free[i + 1];
      }
    }
  }

  /** Two raw disks attached one after the other never share a loop
      device. */
  lemma SuccessiveAttachesDistinct(h: LoopHost, a: Apis.ContainerDevice, b: Apis.ContainerDevice)
    requires WellFormed(h)
    requires NewContainerDevices(h, a).res.Ok?
    requires NewContainerDevices(NewContainerDevices(h, a).host, b).res.Ok?
    ensures NewContainerDevices(h, a).res.value[0].hostPath !=
            NewContainerDevices(NewContainerDevices(h, a).host, b).res.value[0].hostPath
  {
    NewContainerDevicesWellFormed(h, a);
    NewContainerDevicesWellFormed(NewContainerDevices(h, a).host, b);
  }
}
