/** The CPH AOSP binder container device manager
    (pkg/hostman/isolated_device/container_device/cph_aosp_binder.go):
    numbered virtual binder devices behind one control device, and the
    three binder nodes an Android container sees.

    The host is abstract: the paths that exist, the commands that fail,
    and the trace of commands run. `CheckVirtualNumber` is defined outside
    this model and enters as its verdict. */
module AospBinder {
  import opened Wrappers
  import Strings
  import Apis
  import Cri

  const CONTROL_DEV_PATH: string := "/dev/binder-control"
  const MODEL_NAME: string := "CPH AOSP BINDER"
  const VENDOR_ID: string := "0000"
  const DEVICE_ID: string := "0000"
  const BINDER_DEVICE_BIN: string := "/opt/yunion/bin/binder_device"
  const ID_PREFIX: string := "aosp_binder_"
  const DEV_PREFIX: string := "/dev/"

  /** A virtual binder device (`cphAOSPBinder` with its PCI description). */
  datatype Binder = Binder(
    id: string,
    addr: string,
    vendorId: string,
    deviceId: string,
    modelName: string,
    devType: Apis.DeviceType,
    devicePath: string,
    controlPath: string)

  /** `newCphAOSPBinder`: a binder of the AOSP binder type with the fixed
      PCI description, its id the prefixed address, its device path the id
      under /dev, behind the given control device. */
  function NewBinder(index: nat, controlPath: string): (b: Binder)
    ensures b.devType == Apis.CphAospBinderType
    ensures b.vendorId == VENDOR_ID && b.deviceId == DEVICE_ID && b.modelName == MODEL_NAME
    ensures b.controlPath == controlPath
    ensures b.id == ID_PREFIX + b.addr && b.devicePath == DEV_PREFIX + b.id
    ensures b.addr != "" && Strings.IsDigits(b.addr)
  {
    var id := ID_PREFIX + Strings.Decimal(index);
    Binder(id, Strings.Decimal(index), VENDOR_ID, DEVICE_ID, MODEL_NAME, Apis.CphAospBinderType,
           DEV_PREFIX + id, controlPath)
  }

  /** The index a binder was made for is recoverable from its address and
      from its id, and its device path is its id under /dev. */
  lemma NewBinderIndex(index: nat, controlPath: string)
    ensures var b := NewBinder(index, controlPath);
            Strings.IsDigits(b.addr) && Strings.DecimalValue(b.addr) == index &&
            b.id[..|ID_PREFIX|] == ID_PREFIX && Strings.IsDigits(b.id[|ID_PREFIX|..]) &&
            Strings.DecimalValue(b.id[|ID_PREFIX|..]) == index &&
            b.devicePath == DEV_PREFIX + b.id &&
            b.vendorId == VENDOR_ID && b.deviceId == DEVICE_ID && b.modelName == MODEL_NAME &&
            b.controlPath == controlPath
  {
    var b := NewBinder(index, controlPath);
    assert b.id[|ID_PREFIX|..] == b.addr;
    Strings.DecimalRoundTrip(index);
  }

  /** Binders made for different indexes have different ids, addresses
      and device paths. */
  lemma NewBindersDistinct(i: nat, j: nat, controlPath: string)
    requires i != j
    ensures NewBinder(i, controlPath).id != NewBinder(j, controlPath).id
    ensures NewBinder(i, controlPath).addr != NewBinder(j, controlPath).addr
    ensures NewBinder(i, controlPath).devicePath != NewBinder(j, controlPath).devicePath
  {
    var bi := NewBinder(i, controlPath);
    var bj := NewBinder(j, controlPath);
    assert bi.id[|ID_PREFIX|..] == bi.addr && bj.id[|ID_PREFIX|..] == bj.addr;
    assert bi.devicePath[|DEV_PREFIX|..] == bi.id && bj.devicePath[|DEV_PREFIX|..] == bj.id;
    if bi.addr == bj.addr {
      Strings.DecimalInjective(i, j);
    }
  }

  /** `NewDevices`: the requested number must pass `CheckVirtualNumber`
      (`numberOk`) and the control device must exist; then binders 0, 1,
      ... up to the requested number are made, in order, behind the control
      device. */
  method NewDevices(virtualNumber: int, numberOk: Result<()>, controlExists: bool)
    returns (r: Result<seq<Binder>>)
    ensures numberOk.Err? ==> r == Err(numberOk.error)
    ensures numberOk.Ok? && !controlExists ==> r == Err(NotFound)
    ensures r.Ok? <==> numberOk.Ok? && controlExists
    ensures r.Ok? ==> |r.value| == (if virtualNumber > 0 then virtualNumber else 0) &&
                      forall i :: 0 <= i < |r.value| ==> r.value[i] == NewBinder(i, CONTROL_DEV_PATH)
  {
    if numberOk.Err? {
      return Err(numberOk.error);
    }
    if !controlExists {
      return Err(NotFound);
    }
    var devs: seq<Binder> := [];
    var i := 0;
    while i < virtualNumber
      invariant 0 <= i <= (if virtualNumber > 0 then virtualNumber else 0)
      invariant |devs| == i
      invariant forall k :: 0 <= k < i ==> devs[k] == NewBinder(k, CONTROL_DEV_PATH)
    {
      devs := devs + [NewBinder(i, CONTROL_DEV_PATH)];
      i := i + 1;
    }
    return Ok(devs);
  }

  /** A command run on the host: a binary and its arguments. */
  datatype Command = Command(bin: string, args: seq<string>)

  datatype BinderHost = BinderHost(existing: set<string>, failing: set<Command>, commands: seq<Command>)

  datatype Reply = Reply(host: BinderHost, res: Result<seq<Cri.Device>>)

  /** The command that creates the binder device named by the last element
      of `path` behind the control device. */
  function CreateCommand(path: string): (r: Command)
    ensures r.bin == BINDER_DEVICE_BIN && |r.args| == 2 && r.args[0] == CONTROL_DEV_PATH
    ensures r.args[1] != "" && (r.args[1] == "/" || '/' !in r.args[1])
  {
    Command(BINDER_DEVICE_BIN, [CONTROL_DEV_PATH, Strings.Base(path)])
  }

  /** For the device path of a binder, the command names the binder by its
      id. */
  lemma CreateCommandNamesBinder(index: nat, controlPath: string)
    ensures var b := NewBinder(index, controlPath);
            CreateCommand(b.devicePath) == Command(BINDER_DEVICE_BIN, [CONTROL_DEV_PATH, b.id])
  {
    var b := NewBinder(index, controlPath);
    assert forall i :: 0 <= i < |b.addr| ==> b.id[|ID_PREFIX| + i] == b.addr[i];
    assert '/' !in b.id;
    Strings.BaseOfName(DEV_PREFIX, b.id);
  }

  /** The three binder nodes Android expects. */
  const BINDER_NODES: seq<string> := ["/dev/binder", "/dev/hwbinder", "/dev/vndbinder"]

  /** `NewContainerDevices`: a device path that does not exist yet is
      created first by the binder helper; the container then sees the one
      host device under each of the three binder node names, with read,
      write and mknod permission. */
  function NewContainerDevices(h: BinderHost, dev: Apis.ContainerDevice): (r: Reply)
    ensures dev.path in h.existing ==> r.host == h
    ensures dev.path !in h.existing ==> r.host == h.(commands := h.commands + [CreateCommand(dev.path)])
    ensures dev.path !in h.existing ==>
              var name := CreateCommand(dev.path).args[1];
              name != "" && (name == "/" || '/' !in name)
    ensures r.res.Err? <==> dev.path !in h.existing && CreateCommand(dev.path) in h.failing
    ensures r.res.Ok? ==> |r.res.value| == |BINDER_NODES| &&
                          forall i :: 0 <= i < |r.res.value| ==>
                            r.res.value[i] == Cri.Device(BINDER_NODES[i], dev.path, "rwm")
  {
    if dev.path !in h.existing then
      var cmd := CreateCommand(dev.path);
      var ran := h.(commands := h.commands + [cmd]);
      if cmd in h.failing then Reply(ran, Err(Rejected))
      else Reply(ran, Ok(BinderDevices(dev.path)))
    else Reply(h, Ok(BinderDevices(dev.path)))
  }

  function BinderDevices(hostPath: string): seq<Cri.Device>
  {
    [Cri.Device("/dev/binder", hostPath, "rwm"),
     Cri.Device("/dev/hwbinder", hostPath, "rwm"),
     Cri.Device("/dev/vndbinder", hostPath, "rwm")]
  }

  /** The three nodes a container sees are distinct, so none shadows
      another. */
  lemma BinderNodesDistinct(h: BinderHost, dev: Apis.ContainerDevice)
    requires NewContainerDevices(h, dev).res.Ok?
    ensures var ds := NewContainerDevices(h, dev).res.value;
            forall i, j :: 0 <= i < j < |ds| ==> ds[i].containerPath != ds[j].containerPath
  {
    var ds := NewContainerDevices(h, dev).res.value;
    assert ds == BinderDevices(dev.path);
  }
}
