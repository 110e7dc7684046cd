/** Control-plane validation and conversion of container specs
    (pkg/compute/models/containers.go). The database lookups of the source
    are parameters: `fetch` stands for `IsolatedDeviceManager.FetchByIdOrName`
    (or `FetchById`), and `disks` for the pod's disk list as `GetDisks`
    returns it, which can itself fail. */
module ContainerModels {
  import opened Wrappers
  import Apis

  /** `api.ContainerHostDevice`. */
  datatype HostDevice = HostDevice(hostPath: string, containerPath: string, permissions: string)

  /** A device of a container spec: an isolated device by id, or a host
      device, or neither. */
  datatype SpecDevice = SpecDevice(isolatedDeviceId: string, host: Option<HostDevice>)

  /** `api.ContainerVolumeMountDisk`: a disk named by index or by id/name. */
  datatype MountDisk = MountDisk(index: Option<int>, id: string)

  /** `api.ContainerVolumeMount`. */
  datatype VolumeMount = VolumeMount(mountPath: string, readOnly: bool, disk: Option<MountDisk>)

  /** The fields of `api.ContainerSpec` the control plane validates or
      forwards. */
  datatype Spec = Spec(
    image: string,
    command: seq<string>,
    args: seq<string>,
    workingDir: string,
    imagePullPolicy: string,
    devices: seq<SpecDevice>,
    volumeMounts: seq<VolumeMount>)

  /** The parts of a pod disk (`SDisk`) that validation reads. */
  datatype Disk = Disk(id: string, name: string, fsFormat: string)

  /** The parts of an isolated device record (`SIsolatedDevice`). */
  datatype IsolatedDevice = IsolatedDevice(id: string, devType: Apis.DeviceType, addr: string, devicePath: string)

  // ---------------------------------------------------------------------
  // Devices

  /** The permission letters a host device may carry. */
  predicate PermissionChar(c: char)
  {
    c == 'r' || c == 'w' || c == 'm'
  }

  /** Position of the first letter that is not a permission, if any. */
  function FirstBadPermission(p: string): (r: Option<nat>)
    ensures r.None? <==> forall i :: 0 <= i < |p| ==> PermissionChar(p[i])
    ensures r.Some? ==> r.value < |p| && !PermissionChar(p[r.value]) &&
                        forall i :: 0 <= i < r.value ==> PermissionChar(p[i])
  {
    if |p| == 0 then None
    else if !PermissionChar(p[0]) then Some(0)
    else match FirstBadPermission(p[1..])
      case None => None
      case Some(k) => Some(k + 1)
  }

  /** `ValidateSpecHostDevice`: the three fields are required, checked in
      order, then every permission letter must be r, w or m. */
  function ValidateHostDevice(dev: HostDevice): (r: Result<()>)
    ensures r.Ok? <==> (dev.hostPath != "" && dev.containerPath != "" && dev.permissions != "" &&
                       forall i :: 0 <= i < |dev.permissions| ==> PermissionChar(dev.permissions[i]))
    ensures dev.hostPath == "" || dev.containerPath == "" || dev.permissions == "" ==> r == Err(NotEmpty)
    ensures r.Err? && dev.hostPath != "" && dev.containerPath != "" && dev.permissions != "" ==>
              r.error == InputParameter
  {
    if dev.hostPath == "" then Err(NotEmpty)
    else if dev.containerPath == "" then Err(NotEmpty)
    else if dev.permissions == "" then Err(NotEmpty)
    else if FirstBadPermission(dev.permissions).Some? then Err(InputParameter)
    else Ok(())
  }

  /** One iteration of the device loop of `ValidateSpec`: an isolated device
      must exist and have a type containers support, and its reference is
      rewritten to the device's own id; a host device is validated; any
      other device passes unchanged. */
  function ValidateDevice(dev: SpecDevice, fetch: string -> Option<IsolatedDevice>,
                          validTypes: set<Apis.DeviceType>): (r: Result<SpecDevice>)
    ensures dev.isolatedDeviceId != "" ==>
              (fetch(dev.isolatedDeviceId).None? ==> r == Err(NotFound)) &&
              (fetch(dev.isolatedDeviceId).Some? && fetch(dev.isolatedDeviceId).value.devType !in validTypes ==>
                 r == Err(InputParameter)) &&
              (r.Ok? <==> fetch(dev.isolatedDeviceId).Some? && fetch(dev.isolatedDeviceId).value.devType in validTypes) &&
              (r.Ok? ==> r.value == dev.(isolatedDeviceId := fetch(dev.isolatedDeviceId).value.id))
    ensures dev.isolatedDeviceId == "" ==>
              (r.Ok? <==> dev.host.None? || ValidateHostDevice(dev.host.value).Ok?) &&
              (r.Ok? ==> r.value == dev)
  {
    if dev.isolatedDeviceId != "" then
      match fetch(dev.isolatedDeviceId)
      case None => Err(NotFound)
      case Some(obj) =>
        if obj.devType !in validTypes then Err(InputParameter)
        else Ok(dev.(isolatedDeviceId := obj.id))
    else if dev.host.Some? then
      match ValidateHostDevice(dev.host.value)
      case Err(e) => Err(e)
      case Ok(_) => Ok(dev)
    else Ok(dev)
  }

  /** The device loop of `ValidateSpec`: every device is validated in order
      and the first failure is reported. */
  function ValidateDevices(devs: seq<SpecDevice>, fetch: string -> Option<IsolatedDevice>,
                           validTypes: set<Apis.DeviceType>): (r: Result<seq<SpecDevice>>)
    ensures r.Ok? <==> forall i :: 0 <= i < |devs| ==> ValidateDevice(devs[i], fetch, validTypes).Ok?
    ensures r.Ok? ==> |r.value| == |devs| &&
                      forall i :: 0 <= i < |devs| ==> r.value[i] == ValidateDevice(devs[i], fetch, validTypes).value
    ensures r.Err? ==> exists i :: 0 <= i < |devs| && ValidateDevice(devs[i], fetch, validTypes) == Err(r.error) &&
                                  forall j :: 0 <= j < i ==> ValidateDevice(devs[j], fetch, validTypes).Ok?
  {
    if |devs| == 0 then Ok([])
    else
      match ValidateDevice(devs[0], fetch, validTypes)
      case Err(e) => Err(e)
      case Ok(d) =>
        var rest := ValidateDevices(devs[1..], fetch, validTypes);
        if rest.Err? then
          ghost var k :| 0 <= k < |devs[1..]| && ValidateDevice(devs[1..][k], fetch, validTypes) == Err(rest.error) &&
                         forall j :: 0 <= j < k ==> ValidateDevice(devs[1..][j], fetch, validTypes).Ok?;
          assert ValidateDevice(devs[k + 1], fetch, validTypes) == Err(rest.error);
          Err(rest.error)
        else Ok([d] + rest.value)
  }

  // ---------------------------------------------------------------------
  // Image pull policy

  /** The policy check of `ValidateSpec`: an empty policy becomes
      IfNotPresent, and only Always and IfNotPresent are accepted. */
  function ValidatePullPolicy(policy: string): (r: Result<string>)
    ensures r.Ok? <==> (policy == "" || policy == Apis.IMAGE_PULL_POLICY_ALWAYS ||
                       policy == Apis.IMAGE_PULL_POLICY_IF_NOT_PRESENT)
    ensures r.Ok? ==> r.value in {Apis.IMAGE_PULL_POLICY_ALWAYS, Apis.IMAGE_PULL_POLICY_IF_NOT_PRESENT}
    ensures policy == "" ==> r == Ok(Apis.IMAGE_PULL_POLICY_IF_NOT_PRESENT)
    ensures r.Ok? && policy != "" ==> r.value == policy
    ensures r.Err? ==> r.error == InputParameter
  {
    var p := if policy == "" then Apis.IMAGE_PULL_POLICY_IF_NOT_PRESENT else policy;
    if p == Apis.IMAGE_PULL_POLICY_ALWAYS || p == Apis.IMAGE_PULL_POLICY_IF_NOT_PRESENT then Ok(p)
    else Err(InputParameter)
  }

  /** A normalised policy is accepted again as it is. */
  lemma PullPolicyStable(policy: string)
    requires ValidatePullPolicy(policy).Ok?
    ensures ValidatePullPolicy(ValidatePullPolicy(policy).value) == ValidatePullPolicy(policy)
  {
  }

  // ---------------------------------------------------------------------
  // Disk lookup

  /** A disk answers to a reference by its id or by its name. */
  predicate Answers(d: Disk, ref: string)
  {
    d.id == ref || d.name == ref
  }

  /** Index of the first disk answering to `ref`, if any. */
  function FindDisk(disks: seq<Disk>, ref: string): (r: Option<nat>)
    ensures r.None? <==> forall k :: 0 <= k < |disks| ==> !Answers(disks[k], ref)
    ensures r.Some? ==> r.value < |disks| && Answers(disks[r.value], ref) &&
                        forall k :: 0 <= k < r.value ==> !Answers(disks[k], ref)
  {
    if |disks| == 0 then None
    else if Answers(disks[0], ref) then Some(0)
    else match FindDisk(disks[1..], ref)
      case None => None
      case Some(k) => Some(k + 1)
  }

  /** Index of the first disk with exactly this id, if any. */
  function FindDiskById(disks: seq<Disk>, id: string): (r: Option<nat>)
    ensures r.None? <==> forall k :: 0 <= k < |disks| ==> disks[k].id != id
    ensures r.Some? ==> r.value < |disks| && disks[r.value].id == id &&
                        forall k :: 0 <= k < r.value ==> disks[k].id != id
  {
    if |disks| == 0 then None
    else if disks[0].id == id then Some(0)
    else match FindDiskById(disks[1..], id)
      case None => None
      case Some(k) => Some(k + 1)
  }

  /** The index of a disk mount is in range (or absent). */
  predicate IndexOk(d: MountDisk, disks: seq<Disk>)
  {
    d.index.Some? ==> 0 <= d.index.value < |disks|
  }

  /** The reference a disk mount is looked up by: the id of the indexed disk
      when an index is given, the given id otherwise. */
  function Reference(d: MountDisk, disks: seq<Disk>): string
    requires IndexOk(d, disks)
  {
    if d.index.Some? then disks[d.index.value].id else d.id
  }

  /** `ValidateSpecVolumeMountDisk`: an index must lie within the disk list
      and is replaced by that disk's id (the index is dropped); the
      reference must be non-empty and is then resolved to the first disk
      whose id or name equals it, whose id becomes the reference. The source
      reads the disk field without a nil check, so a disk is required. */
  function ValidateVolumeMountDisk(vm: VolumeMount, disks: seq<Disk>): (r: Result<VolumeMount>)
    requires vm.disk.Some?
    ensures !IndexOk(vm.disk.value, disks) ==> r == Err(InputParameter)
    ensures IndexOk(vm.disk.value, disks) && Reference(vm.disk.value, disks) == "" ==> r == Err(NotEmpty)
    ensures IndexOk(vm.disk.value, disks) && Reference(vm.disk.value, disks) != "" &&
            (forall k :: 0 <= k < |disks| ==> !Answers(disks[k], Reference(vm.disk.value, disks))) ==>
              r == Err(NotFound)
    ensures r.Ok? ==>
              IndexOk(vm.disk.value, disks) &&
              r.value.mountPath == vm.mountPath && r.value.readOnly == vm.readOnly &&
              r.value.disk.Some? && r.value.disk.value.index.None? &&
              exists j :: 0 <= j < |disks| && r.value.disk.value.id == disks[j].id &&
                          Answers(disks[j], Reference(vm.disk.value, disks)) &&
                          forall k :: 0 <= k < j ==> !Answers(disks[k], Reference(vm.disk.value, disks))
  {
    var d := vm.disk.value;
    if !IndexOk(d, disks) then Err(InputParameter)
    else
      var ref := Reference(d, disks);
      if ref == "" then Err(NotEmpty)
      else match FindDisk(disks, ref)
        case None => Err(NotFound)
        case Some(j) => Ok(vm.(disk := Some(MountDisk(None, disks[j].id))))
  }

  /** `ValidateSpecVolumeMount`: a mount path is required, and a disk is the
      only mount type. */
  function ValidateVolumeMount(vm: VolumeMount, disks: seq<Disk>): (r: Result<VolumeMount>)
    ensures vm.mountPath == "" ==> r == Err(NotEmpty)
    ensures vm.disk.None? ==> r == Err(NotEmpty)
    ensures vm.mountPath != "" && vm.disk.Some? ==> r == ValidateVolumeMountDisk(vm, disks)
  {
    if vm.mountPath == "" then Err(NotEmpty)
    else if vm.disk.Some? then ValidateVolumeMountDisk(vm, disks)
    else Err(NotEmpty)
  }

  /** Disks whose ids are non-empty and answer for themselves only: no
      disk's id is another disk's id or name. */
  predicate Unambiguous(disks: seq<Disk>)
  {
    forall j, k :: 0 <= j < |disks| && 0 <= k < |disks| && Answers(disks[k], disks[j].id) ==> k == j && disks[j].id != ""
  }

  /** With unambiguous disks an index selects exactly that disk. */
  lemma IndexSelectsThatDisk(vm: VolumeMount, disks: seq<Disk>)
    requires vm.disk.Some? && vm.disk.value.index.Some? && 0 <= vm.disk.value.index.value < |disks|
    requires Unambiguous(disks)
    ensures ValidateVolumeMountDisk(vm, disks) ==
              Ok(vm.(disk := Some(MountDisk(None, disks[vm.disk.value.index.value].id))))
  {
    var i := vm.disk.value.index.value;
    var found := FindDisk(disks, disks[i].id);
    assert Answers(disks[i], disks[i].id);
    assert found.Some? && found.value == i;
  }

  /** With unambiguous disks the normalisation is one-way and final:
      validating a validated mount changes nothing. */
  lemma ValidateVolumeMountDiskStable(vm: VolumeMount, disks: seq<Disk>)
    requires vm.disk.Some? && Unambiguous(disks)
    requires ValidateVolumeMountDisk(vm, disks).Ok?
    ensures ValidateVolumeMountDisk(ValidateVolumeMountDisk(vm, disks).value, disks) == ValidateVolumeMountDisk(vm, disks)
  {
    var once := ValidateVolumeMountDisk(vm, disks).value;
    var j :| 0 <= j < |disks| && once.disk.value.id == disks[j].id;
    var found := FindDisk(disks, disks[j].id);
    assert Answers(disks[j], disks[j].id);
    assert found.Some? && found.value == j;
  }

  /** Without that assumption an index can end up naming another disk: when
      an earlier disk's name equals the indexed disk's id, the lookup by id
      or name resolves to the earlier disk. */
  lemma IndexCanResolveToAnotherDisk()
    ensures var disks := [Disk("d0", "d1", "ext4"), Disk("d1", "data", "ext4")];
            var vm := VolumeMount("/data", false, Some(MountDisk(Some(1), "")));
            ValidateVolumeMountDisk(vm, disks) == Ok(vm.(disk := Some(MountDisk(None, "d0"))))
  {
    var disks := [Disk("d0", "d1", "ext4"), Disk("d1", "data", "ext4")];
    assert Answers(disks[0], "d1");
    assert FindDisk(disks, "d1") == Some(0);
  }

  // ---------------------------------------------------------------------
  // Collecting converted items

  /** Applies `f` to every item in order, failing with the first failure,
      and keeps the present results: the shape of
      `ConvertVolumeMountRelationToSpec` and of the device loop of
      `ToHostContainerSpec`. */
  function Collect<A, B>(xs: seq<A>, f: A -> Result<Option<B>>): (r: Result<seq<B>>)
    ensures r.Ok? <==> forall i :: 0 <= i < |xs| ==> f(xs[i]).Ok?
    ensures r.Ok? ==> |r.value| <= |xs|
    ensures r.Ok? && (forall i :: 0 <= i < |xs| ==> f(xs[i]).value.Some?) ==>
              |r.value| == |xs| && forall i :: 0 <= i < |xs| ==> r.value[i] == f(xs[i]).value.value
  {
    if |xs| == 0 then Ok([])
    else
      match f(xs[0])
      case Err(e) => Err(e)
      case Ok(head) =>
        match Collect(xs[1..], f)
        case Err(e) => Err(e)
        case Ok(rest) => Ok((if head.Some? then [head.value] else []) + rest)
  }

  /** Collecting is order-preserving: the results of a concatenation are the
      results of the first part followed by those of the second. */
  lemma {:induction false} CollectAppend<A, B>(xs: seq<A>, ys: seq<A>, f: A -> Result<Option<B>>)
    requires Collect(xs + ys, f).Ok?
    ensures Collect(xs, f).Ok? && Collect(ys, f).Ok?
    ensures Collect(xs + ys, f).value == Collect(xs, f).value + Collect(ys, f).value
  {
    if |xs| == 0 {
      assert xs + ys == ys;
    } else {
      assert (xs + ys)[1..] == xs[1..] + ys;
      assert forall i :: 0 <= i < |xs| ==> xs[i] == (xs + ys)[i];
      assert forall i :: 0 <= i < |ys| ==> ys[i] == (xs + ys)[|xs| + i];
      CollectAppend(xs[1..], ys, f);
    }
  }

  /** An item whose conversion fails makes the whole collection fail with
      an error: all-or-nothing. */
  lemma CollectFails<A, B>(xs: seq<A>, f: A -> Result<Option<B>>, i: int)
    requires 0 <= i < |xs| && f(xs[i]).Err?
    ensures Collect(xs, f).Err?
  {
  }

  // ---------------------------------------------------------------------
  // Mounts

  /** `hostapi.ContainerMount` for a disk. */
  datatype HostMount = HostMount(diskId: string, containerPath: string, readonly: bool)

  /** `ToHostDiskMount`: the id must be non-empty and name one of the pod's
      disks, which must have a filesystem format; the mount carries the
      disk id, the mount path and the read-only flag. */
  function ToHostDiskMount(vm: VolumeMount, id: string, disks: Result<seq<Disk>>): (r: Result<HostMount>)
    ensures id == "" ==> r == Err(NotEmpty)
    ensures id != "" && disks.Err? ==> r == Err(Rejected)
    ensures id != "" && disks.Ok? && (forall k :: 0 <= k < |disks.value| ==> disks.value[k].id != id) ==>
              r == Err(NotFound)
    ensures r.Ok? <==> (id != "" && disks.Ok? && FindDiskById(disks.value, id).Some? &&
                       disks.value[FindDiskById(disks.value, id).value].fsFormat != "")
    ensures r.Ok? ==> r.value == HostMount(id, vm.mountPath, vm.readOnly)
  {
    if id == "" then Err(NotEmpty)
    else if disks.Err? then Err(Rejected)
    else match FindDiskById(disks.value, id)
      case None => Err(NotFound)
      case Some(j) =>
        if disks.value[j].fsFormat == "" then Err(NotEmpty)
        else Ok(HostMount(disks.value[j].id, vm.mountPath, vm.readOnly))
  }

  /** `ToHostMount`: a disk mount is converted; a mount without a disk gives
      nothing. */
  function ToHostMount(vm: VolumeMount, disks: Result<seq<Disk>>): (r: Result<Option<HostMount>>)
    ensures vm.disk.None? ==> r == Ok(None)
    ensures vm.disk.Some? ==> (r.Ok? <==> ToHostDiskMount(vm, vm.disk.value.id, disks).Ok?) &&
                              (r.Ok? ==> r.value == Some(ToHostDiskMount(vm, vm.disk.value.id, disks).value))
  {
    match vm.disk
    case None => Ok(None)
    case Some(d) =>
      match ToHostDiskMount(vm, d.id, disks)
      case Err(e) => Err(e)
      case Ok(m) => Ok(Some(m))
  }

  /** `ConvertVolumeMountRelationToSpec`. */
  function ConvertMounts(vms: seq<VolumeMount>, disks: Result<seq<Disk>>): Result<seq<HostMount>>
  {
    Collect(vms, vm => ToHostMount(vm, disks))
  }

  /** Mount conversion succeeds exactly when every disk mount converts; then
      every disk mount yields one host mount, in order, with its path and
      read-only flag, and mounts without a disk are skipped. */
  lemma ConvertMountsSpec(vms: seq<VolumeMount>, disks: Result<seq<Disk>>)
    ensures ConvertMounts(vms, disks).Ok? <==>
              forall i :: 0 <= i < |vms| && vms[i].disk.Some? ==> ToHostDiskMount(vms[i], vms[i].disk.value.id, disks).Ok?
    ensures ConvertMounts(vms, disks).Ok? && (forall i :: 0 <= i < |vms| ==> vms[i].disk.Some?) ==>
              |ConvertMounts(vms, disks).value| == |vms| &&
              forall i :: 0 <= i < |vms| ==>
                ConvertMounts(vms, disks).value[i] == HostMount(vms[i].disk.value.id, vms[i].mountPath, vms[i].readOnly)
  {
    var f := vm => ToHostMount(vm, disks);
    assert forall i :: 0 <= i < |vms| ==> f(vms[i]) == ToHostMount(vms[i], disks);
  }

  /** Conversion of two lists of mounts is their conversions concatenated. */
  lemma ConvertMountsAppend(a: seq<VolumeMount>, b: seq<VolumeMount>, disks: Result<seq<Disk>>)
    requires ConvertMounts(a + b, disks).Ok?
    ensures ConvertMounts(a, disks).Ok? && ConvertMounts(b, disks).Ok?
    ensures ConvertMounts(a + b, disks).value == ConvertMounts(a, disks).value + ConvertMounts(b, disks).value
  {
    CollectAppend(a, b, vm => ToHostMount(vm, disks));
  }

  /** `ValidateSpecVolumeMounts`: the pod's disks are read, every mount is
      validated in order (the first failure is reported), and the validated
      mounts must convert to host mounts. */
  function ValidateVolumeMounts(vms: seq<VolumeMount>, disks: Result<seq<Disk>>): (r: Result<seq<VolumeMount>>)
    ensures disks.Err? ==> r == Err(Rejected)
    ensures r.Ok? ==> disks.Ok? && |r.value| == |vms| &&
                      (forall i :: 0 <= i < |vms| ==> ValidateVolumeMount(vms[i], disks.value) == Ok(r.value[i])) &&
                      ConvertMounts(r.value, disks).Ok?
    ensures disks.Ok? && (exists i :: 0 <= i < |vms| && ValidateVolumeMount(vms[i], disks.value).Err?) ==> r.Err?
  {
    if disks.Err? then Err(Rejected)
    else
      match Collect(vms, vm => match ValidateVolumeMount(vm, disks.value)
                               case Err(e) => Err(e)
                               case Ok(v) => Ok(Some(v)))
      case Err(e) => Err(e)
      case Ok(validated) =>
        if ConvertMounts(validated, disks).Err? then Err(ConvertMounts(validated, disks).error)
        else Ok(validated)
  }

  /** `ValidateSpec`: the devices, then the image pull policy, then (when
      asked) the volume mounts; the spec comes back with isolated-device
      references, the policy and the mounts normalised. */
  function ValidateSpec(spec: Spec, fetch: string -> Option<IsolatedDevice>, validTypes: set<Apis.DeviceType>,
                        disks: Result<seq<Disk>>, validateVolumeMount: bool): (r: Result<Spec>)
    ensures ValidateDevices(spec.devices, fetch, validTypes).Err? ==>
              r == Err(ValidateDevices(spec.devices, fetch, validTypes).error)
    ensures r.Ok? <==> (ValidateDevices(spec.devices, fetch, validTypes).Ok? &&
                       ValidatePullPolicy(spec.imagePullPolicy).Ok? &&
                       (validateVolumeMount ==> ValidateVolumeMounts(spec.volumeMounts, disks).Ok?))
    ensures r.Ok? ==>
              r.value.devices == ValidateDevices(spec.devices, fetch, validTypes).value &&
              r.value.imagePullPolicy == ValidatePullPolicy(spec.imagePullPolicy).value &&
              r.value.volumeMounts == (if validateVolumeMount then ValidateVolumeMounts(spec.volumeMounts, disks).value
                                       else spec.volumeMounts) &&
              r.value.image == spec.image && r.value.command == spec.command &&
              r.value.args == spec.args && r.value.workingDir == spec.workingDir
  {
    match ValidateDevices(spec.devices, fetch, validTypes)
    case Err(e) => Err(e)
    case Ok(devices) =>
      match ValidatePullPolicy(spec.imagePullPolicy)
      case Err(e) => Err(e)
      case Ok(policy) =>
        if !validateVolumeMount then Ok(spec.(devices := devices, imagePullPolicy := policy))
        else match ValidateVolumeMounts(spec.volumeMounts, disks)
          case Err(e) => Err(e)
          case Ok(vms) => Ok(spec.(devices := devices, imagePullPolicy := policy, volumeMounts := vms))
  }

  // ---------------------------------------------------------------------
  // Host spec

  /** The host-side device of a spec device: an isolated device is looked up
      by id and described by its record; a host device is copied with the
      host type; a device with neither gives nothing. */
  function ToHostDevice(dev: SpecDevice, fetchById: string -> Option<IsolatedDevice>): (r: Result<Option<Apis.ContainerDevice>>)
    ensures dev.isolatedDeviceId != "" ==>
              (r.Ok? <==> fetchById(dev.isolatedDeviceId).Some?) &&
              (r.Err? ==> r.error == NotFound) &&
              (r.Ok? ==> var iso := fetchById(dev.isolatedDeviceId).value;
                         r.value == Some(Apis.ContainerDevice(iso.id, iso.devType, iso.devicePath, iso.addr, "", "", "")))
    ensures dev.isolatedDeviceId == "" && dev.host.Some? ==>
              r == Ok(Some(Apis.ContainerDevice("", Apis.HostDeviceType, dev.host.value.hostPath, "",
                                                dev.host.value.containerPath, dev.host.value.permissions, "")))
    ensures dev.isolatedDeviceId == "" && dev.host.None? ==> r == Ok(None)
  {
    if dev.isolatedDeviceId != "" then
      match fetchById(dev.isolatedDeviceId)
      case None => Err(NotFound)
      case Some(iso) => Ok(Some(Apis.ContainerDevice(iso.id, iso.devType, iso.devicePath, iso.addr, "", "", "")))
    else if dev.host.Some? then
      Ok(Some(Apis.ContainerDevice("", Apis.HostDeviceType, dev.host.value.hostPath, "",
                                   dev.host.value.containerPath, dev.host.value.permissions, "")))
    else Ok(None)
  }

  /** `hostapi.ContainerSpec`: the control plane's spec fields plus the
      converted mounts and devices. */
  datatype HostSpec = HostSpec(
    image: string,
    imagePullPolicy: string,
    command: seq<string>,
    args: seq<string>,
    workingDir: string,
    mounts: seq<HostMount>,
    devices: seq<Apis.ContainerDevice>)

  /** `ToHostContainerSpec`: the mounts are converted first, then the
      devices; either failure fails the whole conversion. */
  function ToHostContainerSpec(spec: Spec, disks: Result<seq<Disk>>,
                               fetchById: string -> Option<IsolatedDevice>): (r: Result<HostSpec>)
    ensures r.Ok? <==> (ConvertMounts(spec.volumeMounts, disks).Ok? &&
                       forall i :: 0 <= i < |spec.devices| ==> ToHostDevice(spec.devices[i], fetchById).Ok?)
    ensures r.Ok? ==> r.value.mounts == ConvertMounts(spec.volumeMounts, disks).value &&
                      r.value.image == spec.image && r.value.imagePullPolicy == spec.imagePullPolicy &&
                      r.value.command == spec.command &&
                      r.value.args == spec.args && r.value.workingDir == spec.workingDir &&
                      r.value.devices == Collect(spec.devices, dev => ToHostDevice(dev, fetchById)).value
  {
    match ConvertMounts(spec.volumeMounts, disks)
    case Err(e) => Err(e)
    case Ok(mounts) =>
      match Collect(spec.devices, dev => ToHostDevice(dev, fetchById))
      case Err(e) => Err(e)
      case Ok(devices) => Ok(HostSpec(spec.image, spec.imagePullPolicy, spec.command, spec.args, spec.workingDir, mounts, devices))
  }

  /** A spec each of whose devices names an isolated device or a host
      device is forwarded device by device, in order: an isolated device
      as its looked-up record, a host device with the host type and its
      three fields. */
  lemma HostDevicesForwarded(spec: Spec, disks: Result<seq<Disk>>, fetchById: string -> Option<IsolatedDevice>)
    requires forall i :: 0 <= i < |spec.devices| ==> spec.devices[i].isolatedDeviceId != "" || spec.devices[i].host.Some?
    requires ToHostContainerSpec(spec, disks, fetchById).Ok?
    ensures var devs := ToHostContainerSpec(spec, disks, fetchById).value.devices;
            |devs| == |spec.devices| &&
            (forall i :: 0 <= i < |devs| && spec.devices[i].isolatedDeviceId != "" ==>
              fetchById(spec.devices[i].isolatedDeviceId).Some? &&
              var iso := fetchById(spec.devices[i].isolatedDeviceId).value;
              devs[i] == Apis.ContainerDevice(iso.id, iso.devType, iso.devicePath, iso.addr, "", "", "")) &&
            (forall i :: 0 <= i < |devs| && spec.devices[i].isolatedDeviceId == "" ==>
              devs[i].deviceType == Apis.HostDeviceType &&
              devs[i].path == spec.devices[i].host.value.hostPath &&
              devs[i].containerPath == spec.devices[i].host.value.containerPath &&
              devs[i].permissions == spec.devices[i].host.value.permissions)
  {
    var f := dev => ToHostDevice(dev, fetchById);
    assert forall i :: 0 <= i < |spec.devices| ==> f(spec.devices[i]).Ok? && f(spec.devices[i]).value.Some?;
  }

  // ---------------------------------------------------------------------
  // Start and stop guards

  /** The effect of `PerformStart` / `PerformStop`: the container's status,
      whether a task was created, and the reply. */
  datatype Performed = Performed(status: Apis.ContainerStatus, taskStarted: bool, res: Result<()>)

  /** `PerformStart`: only an exited container or one whose start failed may
      be started; the status becomes starting before the task is created,
      and stays so when task creation (`newTaskOk`) fails. */
  function PerformStart(status: Apis.ContainerStatus, newTaskOk: bool): (r: Performed)
    ensures status != Apis.Exited && status != Apis.StartFailed ==> r == Performed(status, false, Err(InvalidStatus))
    ensures status == Apis.Exited || status == Apis.StartFailed ==>
              r.status == Apis.Starting && r.taskStarted == newTaskOk && (r.res.Ok? <==> newTaskOk)
  {
    if status != Apis.Exited && status != Apis.StartFailed then Performed(status, false, Err(InvalidStatus))
    else Performed(Apis.Starting, newTaskOk, if newTaskOk then Ok(()) else Err(Rejected))
  }

  /** `PerformStop`: only a running container or one whose stop failed may
      be stopped; the status becomes stopping before the task is created. */
  function PerformStop(status: Apis.ContainerStatus, newTaskOk: bool): (r: Performed)
    ensures status != Apis.Running && status != Apis.StopFailed ==> r == Performed(status, false, Err(InvalidStatus))
    ensures status == Apis.Running || status == Apis.StopFailed ==>
              r.status == Apis.Stopping && r.taskStarted == newTaskOk && (r.res.Ok? <==> newTaskOk)
  {
    if status != Apis.Running && status != Apis.StopFailed then Performed(status, false, Err(InvalidStatus))
    else Performed(Apis.Stopping, newTaskOk, if newTaskOk then Ok(()) else Err(Rejected))
  }

  /** A start that went through cannot be repeated before the start task
      settles the status, and a stop cannot be repeated either. */
  lemma GuardsNotReentrant(status: Apis.ContainerStatus, ok1: bool, ok2: bool)
    ensures PerformStart(status, ok1).taskStarted ==>
              PerformStart(PerformStart(status, ok1).status, ok2) ==
                Performed(Apis.Starting, false, Err(InvalidStatus))
    ensures PerformStop(status, ok1).taskStarted ==>
              PerformStop(PerformStop(status, ok1).status, ok2) ==
                Performed(Apis.Stopping, false, Err(InvalidStatus))
  {
  }
}
