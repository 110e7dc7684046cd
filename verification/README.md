# Pod and container life cycle of a cloud platform, in Dafny

This project models the pod/container core of a cloud management platform, together with the small validators, parsers and selection rules around it:

- **The host agent's pod guest** (`pkg/hostman/guestman/pod.go`):
  - starting the CRI sandbox with its port mappings;
  - the local container registry and its persistence;
  - creating, starting, stopping and deleting containers against the Container Runtime Interface (CRI);
  - the status mapping, image pulls and clean-up.
- **The CRI client's composite operations** (`pkg/util/pod/pod.go`).
- **Control-plane validation and conversion of container specs** (`pkg/compute/models/containers.go`).
- **Host-side volume and device resolution**:
  - the disk volume mount driver;
  - the local raw-disk loop device;
  - the CPH AOSP binder device.
- **The guest descriptor normalisation of the runtime layer** (`pkg/hostman/guestman/runtime.go`).
- **The control-plane tasks that create a pod and its containers.**
- **The command-line parsers** for container environment variables and alert conditions.
- **Provider-factory selection and caching** in the multi-cloud command-line tool.

## How it is modelled

**The CRI runtime.** It is an abstract state (module `Cri`):
- sandboxes;
- containers with their state;
- cached images;
- an id counter;
- a set of calls the runtime rejects.

Every remote call appends itself to a trace, whether it succeeds or fails. "No call was issued" is therefore a statement about the trace: it did not grow. "A start was issued" is a statement about the kinds of the calls the trace gained.

**Operations.**
- Pure operations are functions with named results.
- Operations whose composition would be too costly to unfold (the branches of `StartContainer`, the task loops, the binder enumeration) are methods with postconditions.
- Every operation takes its collaborators as parameters:
  - the database and control plane as lookups or outcomes;
  - the device managers as a lookup;
  - the storage driver and loop devices as explicit state.

**Errors.** They are reduced to kinds (`Wrappers.Error`), not messages.

**Modules.** One module per source component:

| module | file | component |
|---|---|---|
| `Wrappers` | `wrappers.dfy` | `Option`, `Result`, error kinds |
| `Strings` | `strings.dfy` | Go's `strings.Split` / `Join`, decimal rendering, `path.Join`, `filepath.Base` |
| `Apis` | `apis.dfy` | API constants and records |
| `Cri` | `cri.dfy` | the runtime |
| `CriClient` | `cri_client.dfy` | `pkg/util/pod/pod.go` |
| `ContainerRegistry` | `container_registry.dfy` | the registry part of `pod.go` |
| `PodInstance` | `pod_instance.dfy` | the rest of `pod.go` |
| `ContainerModels` | `containers.dfy` | `pkg/compute/models/containers.go` |
| `DiskVolume` | `disk_volume.dfy` | the disk volume mount driver |
| `LocalRaw` | `local_raw.dfy` | the local raw-disk loop device |
| `AospBinder` | `aosp_binder.dfy` | the CPH AOSP binder device |
| `GuestRuntime` | `guest_runtime.dfy` | `runtime.go` |
| `Tasks` | `tasks.dfy` | the two create tasks |
| `ContainerOptions` | `container_options.dfy` | the container create options |
| `AlertOptions` | `alert_options.dfy` | the alert options |
| `CloudProvider` | `cloud_provider.dfy` | the provider factory |
| `CloudMux` | `cloud_mux.dfy` | the factory selection |

### Behaviour of the source worth knowing

1. **Duplicate container ids are detected late.** `createContainer` refuses a duplicate logical container id only when it records the container (`pod.go:555`). That happens after the runtime has already created it (`pod.go:548-551`). `PodInstance.CreateContainerRecord` keeps this order: a duplicate id leaves the registry untouched, but the create call is in the trace.
2. **The rejection in `StartContainer` may not be an error.** For a container in any status other than exited or created, `StartContainer` returns `errors.Wrapf(err, …)` with an `err` that is nil at that point (`pod.go:356`). The model returns the non-error outcome `Declined(status)`. It promises only that no CRI start is issued.
3. **A disk index can end up naming another disk.** `ValidateSpecVolumeMountDisk` rewrites a disk index into the id of the indexed disk. It then looks that id up by "id or name", taking the first match. If an earlier disk's name equals the indexed disk's id, the mount ends up naming the earlier disk. `ContainerModels.IndexCanResolveToAnotherDisk` exhibits this. `ContainerModels.IndexSelectsThatDisk` proves the index selects that very disk when no disk's id is another disk's id or name.
4. **Environment variables and mounts never reach the runtime.** The container's environment list handed to the runtime is always empty (`pod.go:517`), and mounts are not forwarded. The model's container config carries neither.

## Model

| member | source | states |
|---|---|---|
| ContainerRegistry.Save | pkg/hostman/guestman/pod.go:439-451 | an id already present is refused with AlreadyExists and nothing changes; otherwise exactly that record is added, every other record is untouched, and the saved file equals the in-memory map |
| ContainerRegistry.Lookup | pkg/hostman/guestman/pod.go:337-343 | an absent id gives NotFound; a present one gives the CRI id recorded for it |
| ContainerRegistry.Remove | pkg/hostman/guestman/pod.go:571-575 | the id is absent afterwards, every other record is unchanged, and the file is rewritten to match |
| ContainerRegistry.LookupAfterSave | pkg/hostman/guestman/pod.go:337-343 | after a successful save the id answers with the CRI id saved, and other ids answer as before |
| ContainerRegistry.LookupAfterRemove | pkg/hostman/guestman/pod.go:561-577 | after a removal the id is NotFound and every other id answers as before |
| ContainerRegistry.RemoveIdempotent | pkg/hostman/guestman/pod.go:561-577 | removing twice is removing once |
| ContainerRegistry.RemoveUndoesSave | pkg/hostman/guestman/pod.go:439-451 | saving a fresh id then removing it restores the in-memory map |
| PodInstance.ParseProtocol | pkg/hostman/guestman/pod.go:273-283 | tcp, udp and sctp map to TCP, UDP and SCTP respectively, each if and only if; any other string maps to nothing |
| PodInstance.TranslatePortMappings | pkg/hostman/guestman/pod.go:264-287 | succeeds iff every mapping has a known protocol; the result has the same length and order, with ports and host IP copied |
| PodInstance.SetCriInfo | pkg/hostman/guestman/pod.go:401-414 | the live descriptor records the sandbox id and config; the source descriptor follows only when the control plane accepts, otherwise the call fails with the source unchanged; nothing else changes |
| PodInstance.LogDir | pkg/hostman/guestman/pod.go:223-225 | the pod's log directory is `logs` directly inside its home directory |
| PodInstance.SandboxConfigFor | pkg/hostman/guestman/pod.go:232-261 | the sandbox config carries the pod's name, id as uid, tenant as namespace, attempt 1, the pod's hostname, its log directory and the translated port mappings |
| PodInstance.StartPod | pkg/hostman/guestman/pod.go:227-298 | missing create parameters or an invalid protocol fail before RunPod is issued; otherwise RunPod is the one call issued, and success records the new sandbox id in the live descriptor |
| PodInstance.TranslateDevices | pkg/hostman/guestman/pod.go:520-540 | succeeds iff every device translates; a list of host-type devices is copied field for field, in order |
| PodInstance.TranslateOneDevice | pkg/hostman/guestman/pod.go:521-538 | a one-device list gives exactly that device's translation: a host device copied, an unmanaged type refused, otherwise its manager's answer |
| PodInstance.TranslateDevicesAppend | pkg/hostman/guestman/pod.go:520-540 | the devices of a concatenated list are those of its two halves, in order, so each device contributes its own translation at its position |
| PodInstance.UnmanagedDeviceFails | pkg/hostman/guestman/pod.go:527-531 | a non-host device type without a registered manager makes the translation fail |
| PodInstance.LogPath | pkg/hostman/guestman/pod.go:480-482 | a container's log path is its id followed by `.log` |
| PodInstance.LogPathsDistinct | pkg/hostman/guestman/pod.go:480-482 | different container ids log to different paths |
| PodInstance.ContainerConfigFor | pkg/hostman/guestman/pod.go:487-546 | the container config carries the input's name and image, the command and the args only when non-empty, an empty environment, the container's log path, the translated devices and the single added capability SYS_ADMIN |
| PodInstance.CreateContainerRecord | pkg/hostman/guestman/pod.go:484-559 | a device failure or a missing sandbox config aborts before any runtime call; otherwise exactly one create call is issued, carrying the pod's sandbox id and config, the input's name and image, command and args only when non-empty, no environment, the container's log path, the translated devices and the capability SYS_ADMIN; an id already recorded fails after that call with the registry unchanged; success records the returned CRI id |
| PodInstance.CreateContainer | pkg/hostman/guestman/pod.go:469-478 | at most one runtime call is added, and it is the create call `createContainer` builds, translated devices and SYS_ADMIN included; success requires the control plane to accept the metadata; the registry changes only by adding the new id |
| PodInstance.DeleteContainer | pkg/hostman/guestman/pod.go:561-577 | an unknown id succeeds with no runtime call; a remove call is issued only for a non-empty recorded CRI id; on success the id is gone and nothing else changes |
| PodInstance.DeleteTwice | pkg/hostman/guestman/pod.go:561-577 | a second delete succeeds without any runtime call and leaves the pod as the first left it |
| PodInstance.MapState | pkg/hostman/guestman/pod.go:588-599 | created, running, exited and unknown runtime states map to the statuses of the same name, each if and only if |
| PodInstance.GetContainerStatus | pkg/hostman/guestman/pod.go:579-600 | an unrecorded id is NotFound with no call; otherwise one status call on the recorded CRI id, succeeding iff the runtime answers, with the mapped state |
| PodInstance.SyncContainerStatus | pkg/hostman/guestman/pod.go:602-608 | reports exactly the status getContainerStatus sees, with its runtime effect |
| PodInstance.StopContainer | pkg/hostman/guestman/pod.go:382-395 | an unrecorded id is NotFound with no call; otherwise one stop call on the recorded CRI id, leaving that container exited on success |
| PodInstance.StartRecorded | pkg/hostman/guestman/pod.go:371-377 | an unrecorded id is NotFound with no call; a recorded non-empty CRI id gets exactly one start call, and success leaves it running |
| PodInstance.CreateThenStart | pkg/hostman/guestman/pod.go:359-377 | the calls issued are a prefix of create then start, and exactly those on success; the create call carries the translated devices and SYS_ADMIN; after success the container is recorded and running |
| PodInstance.RecreateThenStart | pkg/hostman/guestman/pod.go:359-377 | the calls issued are a prefix of one remove (only when a CRI id was recorded), one create and one start; the call after the remove is the create call `createContainer` builds |
| PodInstance.ActOnStatus | pkg/hostman/guestman/pod.go:353-377 | exited recreates then starts; created starts only; any other status returns Declined with no call issued |
| PodInstance.StartKnown | pkg/hostman/guestman/pod.go:348-380 | the status query comes first; a failed query stops there; then the status decides as in ActOnStatus |
| PodInstance.StartContainer | pkg/hostman/guestman/pod.go:345-380 | an unknown id is created then started, the first call being the create call with the translated devices and SYS_ADMIN; exited is removed, recreated and started; created is started directly; any other status issues no start call |
| PodInstance.AuthFor | pkg/hostman/guestman/pod.go:639-649 | the runtime auth config is present iff auth was given, with every field copied unchanged |
| PodInstance.PullImage | pkg/hostman/guestman/pod.go:610-654 | under IfNotPresent or no policy, a cached image returns its id after only the status query; otherwise a pull is issued with the sandbox config and the copied auth; success returns the image id the runtime now caches |
| PodInstance.PullWithSandbox | pkg/hostman/guestman/pod.go:626-653 | a missing sandbox config fails with no call; otherwise exactly one pull call |
| PodInstance.CleanVolumes | pkg/hostman/guestman/pod.go:80-121 | only paths of the pod's disks are returned, at most one per volume; the disk of every volume that has one is among them, and none is returned when no volume has a disk |
| PodInstance.CleanOneVolume | pkg/hostman/guestman/pod.go:95-103 | a volume with a disk cleans the path of the disk at its index; a volume without one cleans nothing |
| PodInstance.CleanVolumesAppend | pkg/hostman/guestman/pod.go:86-91 | the volumes are cleaned in order: the paths of a concatenated list are those of its two halves |
| PodInstance.CleanGuest | pkg/hostman/guestman/pod.go:69-78 | exactly one remove-sandbox call for the source descriptor's sandbox id; success means that sandbox is gone, the home directory was deleted, and the result is the disk paths of the volumes; after a successful removal, a failed home-directory deletion is the error returned |
| CriClient.StartContainer | pkg/util/pod/pod.go:167-177 | an empty id fails with no call; otherwise exactly one start call for that id |
| CriClient.CreateContainer | pkg/util/pod/pod.go:131-164 | a pull precedes the create iff withPull is set; a failed pull means no create call |
| CriClient.CreateAndStartAll | pkg/util/pod/pod.go:197-207 | the progress reports one id per config when all start, otherwise the failing index and the ids started before it; the calls issued in each outcome are stated by CriClient.AllStartedTrace, CriClient.CreateFailedTrace and CriClient.StartFailedTrace |
| CriClient.AllStartedTrace | pkg/util/pod/pod.go:197-209 | when every container starts, exactly the create-and-start steps of the configs are issued in order, each start naming the id its create returned, and the ids are returned in order |
| CriClient.CreateFailedTrace | pkg/util/pod/pod.go:199-202 | when the create of container k fails, containers before k went through their steps and nothing after k is touched |
| CriClient.StartFailedTrace | pkg/util/pod/pod.go:203-206 | when the start of container k fails, the trace is exactly the full steps of the first k containers followed by the pull, create and start of container k: no removal follows and later configs are never touched |
| CriClient.RunContainers | pkg/util/pod/pod.go:185-209 | a failed sandbox run creates no container; otherwise the loop runs against the new sandbox id, and any failure returns no response |
| CriClient.StepsTouchOnlyTheirConfigs | pkg/util/pod/pod.go:197-207 | every call of a successful run of steps belongs to one of the given configs |
| CriClient.StepsLength | pkg/util/pod/pod.go:197-207 | a successful run issues a fixed number of calls per config |
| ContainerModels.FirstBadPermission | pkg/compute/models/containers.go:141-147 | finds the first letter outside r, w and m, and none iff all letters are permissions |
| ContainerModels.ValidateHostDevice | pkg/compute/models/containers.go:131-149 | accepted iff host path, container path and permissions are non-empty and every permission letter is r, w or m; an empty field is refused as NotEmpty, and a bad letter with all fields present as InputParameter |
| ContainerModels.ValidateDevice | pkg/compute/models/containers.go:152-168 | an isolated device must exist and have a valid type, and is then rewritten to its canonical id; a host device is validated; others pass |
| ContainerModels.ValidateDevices | pkg/compute/models/containers.go:152-169 | succeeds iff every device validates, keeping length and order |
| ContainerModels.ValidatePullPolicy | pkg/compute/models/containers.go:170-175 | an empty policy becomes IfNotPresent; only Always and IfNotPresent are accepted |
| ContainerModels.PullPolicyStable | pkg/compute/models/containers.go:170-175 | a normalised policy validates to itself |
| ContainerModels.FindDisk | pkg/compute/models/containers.go:235-242 | the first disk whose id or name equals the reference |
| ContainerModels.FindDiskById | pkg/compute/models/containers.go:318-324 | the first disk whose id equals the given id |
| ContainerModels.ValidateVolumeMountDisk | pkg/compute/models/containers.go:218-247 | an out-of-range index fails; the reference must be non-empty and resolve; the result names the resolved disk by id and carries no index |
| ContainerModels.ValidateVolumeMount | pkg/compute/models/containers.go:208-216 | an empty mount path fails; a mount without a disk fails; otherwise the disk is validated |
| ContainerModels.IndexSelectsThatDisk | pkg/compute/models/containers.go:220-245 | with unambiguous disks, an index normalises to exactly the indexed disk's id |
| ContainerModels.ValidateVolumeMountDiskStable | pkg/compute/models/containers.go:218-247 | with unambiguous disks, validating a validated mount changes nothing |
| ContainerModels.IndexCanResolveToAnotherDisk | pkg/compute/models/containers.go:220-245 | a concrete disk list where index 1 ends up naming disk 0 |
| ContainerModels.CollectAppend | pkg/compute/models/containers.go:425-437 | the conversion of a concatenation is the concatenation of the conversions |
| ContainerModels.CollectFails | pkg/compute/models/containers.go:428-432 | a failing item fails the whole conversion |
| ContainerModels.ToHostDiskMount | pkg/compute/models/containers.go:310-340 | an empty or unknown id, an unreadable disk list or an empty file-system format fails; otherwise the mount carries the disk id, the mount path and the read-only flag |
| ContainerModels.ToHostMount | pkg/compute/models/containers.go:299-308 | a disk mount is converted and a mount without a disk gives nothing |
| ContainerModels.ConvertMountsSpec | pkg/compute/models/containers.go:425-437 | conversion succeeds iff every disk mount converts, keeps order and skips mounts without a disk |
| ContainerModels.ConvertMountsAppend | pkg/compute/models/containers.go:425-437 | converting two lists of mounts gives their conversions concatenated |
| ContainerModels.ValidateVolumeMounts | pkg/compute/models/containers.go:186-206 | the disks must be readable; every mount validates in order; the normalised mounts must convert (the relations share the mount records that validation rewrites in place) |
| ContainerModels.ValidateSpec | pkg/compute/models/containers.go:151-184 | devices first, then the policy, then (when asked) the mounts; success returns the normalised spec |
| ContainerModels.ToHostDevice | pkg/compute/models/containers.go:453-478 | an isolated device is fetched and sent with its type and path; a host device is sent with the host type and its three fields; neither gives nothing |
| ContainerModels.ToHostContainerSpec | pkg/compute/models/containers.go:439-480 | mounts are converted first, then devices; either failure fails the whole conversion; on success the image, pull policy, command, args and working directory are copied, and the devices are the converted devices in order, a device with neither an isolated id nor a host part giving nothing |
| ContainerModels.HostDevicesForwarded | pkg/compute/models/containers.go:453-478 | when every device names an isolated device or a host device, there is one host device per spec device, in order: an isolated device as the id, type, device path and address of its looked-up record, a host device with the host type and its path, container path and permissions |
| ContainerModels.PerformStart | pkg/compute/models/containers.go:358-372 | only an exited or start-failed container may be started; otherwise InvalidStatus and no task |
| ContainerModels.PerformStop | pkg/compute/models/containers.go:374-388 | only a running or stop-failed container may be stopped; the status becomes stopping before the task |
| ContainerModels.GuardsNotReentrant | pkg/compute/models/containers.go:358-388 | a start or stop that went through cannot be repeated before its task settles the status |
| DiskVolume.RuntimeMountHostPath | pkg/hostman/container/volume_mount/disk.go:31-37 | a mount without a disk fails; otherwise the pod volumes directory joined with the disk id |
| DiskVolume.HostPathsDistinct | pkg/hostman/container/volume_mount/disk.go:31-37 | mounts of different non-empty disk ids never share a host path |
| DiskVolume.FirstWithId | pkg/hostman/container/volume_mount/disk.go:46-53 | the first pod disk carrying the id |
| DiskVolume.PodDisk | pkg/hostman/container/volume_mount/disk.go:39-62 | an empty id fails before any lookup; no matching pod disk gives NotFound; the first match is used; the storage must know its path |
| DiskVolume.Connect | pkg/hostman/container/volume_mount/disk.go:85-95 | a connected disk answers its device without a call; otherwise one connect call is issued, and on success the disk is recorded as connected at the device it answers, with mounts untouched |
| DiskVolume.Mount | pkg/hostman/container/volume_mount/disk.go:76-97 | a lookup or driver error issues nothing; otherwise a connect check, a connect iff not connected, and a mount with the device path whichever call produced it |
| DiskVolume.Unmount | pkg/hostman/container/volume_mount/disk.go:99-119 | a lookup or driver error issues nothing; otherwise a connect check, a disconnect iff connected, then the unmount |
| DiskVolume.UnmountUndoesMount | pkg/hostman/container/volume_mount/disk.go:76-119 | unmounting a just-mounted volume disconnects its disk, and restores the connected disks and mount points when the disk was not connected before |
| LocalRaw.NewDevices | pkg/hostman/storageman/container_storage/local_raw.go:26-28 | always fails with Unsupported |
| LocalRaw.NewContainerDevices | pkg/hostman/storageman/container_storage/local_raw.go:30-53 | a lookup error, a format error or a non-raw format fails with no attach; success returns exactly one device with the container path, the loop device and rwm |
| LocalRaw.NewContainerDevicesWellFormed | pkg/hostman/storageman/container_storage/local_raw.go:42-52 | attaching keeps the loop books consistent and hands out a device not attached before |
| LocalRaw.SuccessiveAttachesDistinct | pkg/hostman/storageman/container_storage/local_raw.go:42-52 | two raw disks attached in turn never share a loop device |
| AospBinder.NewBinder | pkg/hostman/isolated_device/container_device/cph_aosp_binder.go:135-149 | a binder has the AOSP binder type, vendor and device 0000 and the binder model name, a decimal address, the id aosp_binder_ followed by the address, the device path /dev/ followed by the id, and the given control path |
| AospBinder.NewBinderIndex | pkg/hostman/isolated_device/container_device/cph_aosp_binder.go:135-149 | the address and the id suffix are the decimal index; the device path is the id under /dev; vendor and device are 0000, the model name is fixed and the control path is the one given |
| AospBinder.NewBindersDistinct | pkg/hostman/isolated_device/container_device/cph_aosp_binder.go:135-149 | binders of different indexes differ in id, address and path |
| AospBinder.NewDevices | pkg/hostman/isolated_device/container_device/cph_aosp_binder.go:56-72 | a failed number check or a missing control device yields no devices; otherwise exactly the binders for indexes 0 to n-1, in order |
| AospBinder.CreateCommand | pkg/hostman/isolated_device/container_device/cph_aosp_binder.go:121-128 | the binder_device command takes two arguments: the control device, then a non-empty base name that is "/" or contains no slash |
| AospBinder.CreateCommandNamesBinder | pkg/hostman/isolated_device/container_device/cph_aosp_binder.go:121-149 | for the device path of binder i the command names the binder by its id aosp_binder_i |
| AospBinder.NewContainerDevices | pkg/hostman/isolated_device/container_device/cph_aosp_binder.go:93-119 | the device is created iff its path does not exist; a creation failure yields no devices; success yields binder, hwbinder and vndbinder, in that order, all on the device path with rwm |
| AospBinder.BinderNodesDistinct | pkg/hostman/isolated_device/container_device/cph_aosp_binder.go:101-117 | the three container paths are distinct |
| GuestRuntime.NewRuntimeInstance | pkg/hostman/guestman/runtime.go:85-94 | kvm or empty gives a KVM instance, pod a pod instance, anything else is fatal |
| GuestRuntime.HomeDir | pkg/hostman/guestman/runtime.go:50-52 | the home directory is the id directly under the servers path, and empty only when both are |
| GuestRuntime.HomeDirsDistinct | pkg/hostman/guestman/runtime.go:50-52 | guests with different ids under one servers path have different home directories |
| GuestRuntime.DescFilePath | pkg/hostman/guestman/runtime.go:54-56 | the descriptor file is `desc` directly inside the home directory |
| GuestRuntime.SourceDescFilePath | pkg/hostman/guestman/runtime.go:74-76 | the source descriptor file is `source-desc` directly inside the home directory, so it never coincides with the descriptor file |
| GuestRuntime.DescFilesInHome | pkg/hostman/guestman/runtime.go:50-76 | both descriptor files are named entries directly inside the home directory, and they differ |
| GuestRuntime.FillBridges | pkg/hostman/guestman/runtime.go:113-117 | only NICs with an empty bridge get one; every other NIC is unchanged |
| GuestRuntime.FillBridgesIdempotent | pkg/hostman/guestman/runtime.go:113-117 | filling twice is filling once |
| GuestRuntime.FlagOnlyCount | pkg/hostman/guestman/runtime.go:152-163 | flagging one index gives exactly one default when it is in range and none otherwise |
| GuestRuntime.FixDefault | pkg/hostman/guestman/runtime.go:139-163 | with exactly one default the NICs are unchanged; otherwise the chosen NIC is the only default and nothing but the flags changes |
| GuestRuntime.FixDefaultIdempotent | pkg/hostman/guestman/runtime.go:139-163 | fixing a fixed list with the same choice changes nothing |
| GuestRuntime.FillBridgesKeepsDefaults | pkg/hostman/guestman/runtime.go:136-163 | filling bridges does not touch the default flags |
| GuestRuntime.SaveLiveDesc | pkg/hostman/guestman/runtime.go:136-163 | the saved live descriptor keeps every NIC's addresses, has its bridges filled, and has at most one default NIC |
| GuestRuntime.SaveDesc | pkg/hostman/guestman/runtime.go:110-134 | the source descriptor is replaced with bridges filled; the live one is re-derived from it only when the guest is not running |
| Tasks.PodOnInit | pkg/compute/tasks/pod_create_task.go:38-52 | the stage becomes OnPodCreated before the guest create task is made; a failure to make or schedule it fails the task |
| Tasks.CreateAll | pkg/compute/tasks/pod_create_task.go:62-70 | records are created in order; the first failure stops with the records made before it |
| Tasks.StartAll | pkg/compute/tasks/pod_create_task.go:72-77 | create tasks start in order; the first failure stops and earlier ones stay started |
| Tasks.PodOnPodCreated | pkg/compute/tasks/pod_create_task.go:54-78 | every record exists before any create task starts; a record failure starts none; a start failure at k fails the stage with 0..k-1 left started |
| Tasks.PodOnContainerCreated | pkg/compute/tasks/pod_create_task.go:88-103 | a fetch error fails the stage; the stage completes iff every container runs (vacuously for none); otherwise nothing changes |
| Tasks.PodOnStageFailed | pkg/compute/tasks/pod_create_task.go:84-86 | the stage fails with the data received |
| Tasks.ContainerOnInit | pkg/compute/tasks/container_create_task.go:52-63 | the stage and the starting status are set before the request; a refused request marks the container start-failed with the reason and fails the stage |
| Tasks.ContainerOnStartedFailed | pkg/compute/tasks/container_create_task.go:69-72 | the container gets the start-failed status and the reason, and the stage fails with the same reason |
| Tasks.ContainerOnStarted | pkg/compute/tasks/container_create_task.go:65-67 | the stage completes and the container is left untouched |
| Tasks.ContainerTaskOutcomeAgrees | pkg/compute/tasks/container_create_task.go:52-72 | a failed task's container is start-failed for the same reason; a completed one's container is still starting |
| Strings.SplitPair | pkg/mcclient/options/compute/containers.go:73-76 | a string splits into exactly two pieces iff it holds the separator once; the pieces joined by it give the string back |
| Strings.SplitPairRoundTrip | pkg/mcclient/options/compute/containers.go:73-80 | two separator-free pieces joined by the separator split back into themselves |
| Strings.SplitPairs | pkg/mcclient/options/monitor/alert.go:81-93 | every item splits in two, in order, or the whole list fails |
| Strings.SplitPairsRoundTrip | pkg/mcclient/options/monitor/alert.go:81-93 | joined separator-free pairs split back into the same pairs |
| Strings.PathJoinInjective | pkg/hostman/container/volume_mount/disk.go:36 | joining distinct non-empty names under one directory gives distinct paths |
| ContainerOptions.ParseEnv | pkg/mcclient/options/compute/containers.go:72-81 | succeeds iff the string holds exactly one "=", giving the key and value on either side; otherwise InvalidFormat |
| ContainerOptions.ParseEnvRoundTrip | pkg/mcclient/options/compute/containers.go:72-81 | a key and value without "=" print to a string that parses back to them |
| ContainerOptions.ParseEnvs | pkg/mcclient/options/compute/containers.go:62-68 | one entry per input string, in order; the first malformed string aborts with no list |
| ContainerOptions.Params | pkg/mcclient/options/compute/containers.go:50-70 | pod, name, image, command, args and working directory are copied; envs are parsed; no env gives an empty list |
| ContainerOptions.FormatEnvs | pkg/mcclient/options/compute/containers.go:72-81 | the printed form of each variable, in order |
| ContainerOptions.ParseFormattedEnvs | pkg/mcclient/options/compute/containers.go:58-68 | variables without "=" in key or value, printed as key=value, parse back to exactly themselves, in order, so options carrying them yield those variables |
| AlertOptions.ParseTags | pkg/mcclient/options/monitor/alert.go:81-93 | succeeds iff every tag holds exactly one "="; the tags keep their order, with key and value on either side |
| AlertOptions.ConditionParams | pkg/mcclient/options/monitor/alert.go:54-97 | needs a metric with exactly one "." and valid tags; the condition is a "query" joined by "and" over the period, with one field select, the measurement, the database, the reducer and the single threshold |
| AlertOptions.MetricRoundTrip | pkg/mcclient/options/monitor/alert.go:69-79 | a metric printed from a measurement and a field reads back as them |
| AlertOptions.WholeSeconds | pkg/mcclient/options/monitor/alert.go:115 | whole seconds of a nanosecond duration, truncated toward zero |
| AlertOptions.WholeSecondsTruncates | pkg/mcclient/options/monitor/alert.go:115 | minus one and a half seconds is minus one second, not minus two |
| AlertOptions.CreateParams | pkg/mcclient/options/monitor/alert.go:107-128 | a bad frequency fails before the condition; the frequency is zero when absent, else whole seconds; exactly one condition |
| AlertOptions.UpdateParams | pkg/mcclient/options/monitor/alert.go:136-150 | the name is copied; the frequency is absent iff empty; a bad frequency fails |
| CloudProvider.NewProviderFactory | pkg/cloudmux/cloudprovider/cloudprovider.go:59-66 | no current factory and an empty cache |
| CloudProvider.Use | pkg/cloudmux/cloudprovider/cloudprovider.go:102-106 | the factory becomes current, so the provider factory is initialised; the cache is kept |
| CloudProvider.GetProvider | pkg/cloudmux/cloudprovider/cloudprovider.go:81-100 | no current factory fails; a cached name returns the cached provider with no build; otherwise the build result is returned and cached only on success |
| CloudProvider.GetProviderMemoised | pkg/cloudmux/cloudprovider/cloudprovider.go:86-99 | after a served provider, asking again returns the same provider without building |
| CloudProvider.FailedBuildRetried | pkg/cloudmux/cloudprovider/cloudprovider.go:91-94 | a failed build caches nothing, so the next request builds again |
| CloudMux.AddFactory | pkg/cloudmux/cmcli/util/cmd/factory_impl.go:57-60 | appends, preserving the existing entries as a prefix |
| CloudMux.NewOptions | pkg/cloudmux/cmcli/util/cmd/factory_impl.go:44-55 | Aliyun is registered first, then AWS, each with its credentials |
| CloudMux.FirstInit | pkg/cloudmux/cmcli/util/cmd/factory_impl.go:89-94 | the first initialised factory by position, and none iff no factory is initialised |
| CloudMux.GetProvider | pkg/cloudmux/cmcli/util/cmd/factory_impl.go:86-101 | no initialised factory fails; otherwise the first initialised factory's provider |
| CloudMux.AliyunFirst | pkg/cloudmux/cmcli/util/cmd/factory_impl.go:51-52 | with both credentials Aliyun wins; AWS is used only when Aliyun lacks one; neither fails |

## Left out

- **gRPC transport.** Dialling, credentials, message limits and timeouts of the CRI client are left out. The runtime is abstract state with a call trace.
- **Files and JSON.**
  - Reading, writing and (un)marshalling of the containers file and the descriptors are not modelled.
  - Persistence is the statement that the saved map equals the in-memory map.
- **Control-plane metadata calls.** `SetMetadata` and `setContainerCRIInfo` enter as booleans saying whether the control plane accepted.
- **Database, task framework and HTTP.**
  - Database fetches and record creation enter as lookup functions or outcomes.
  - Task scheduling enters as its outcome.
  - The HTTP handlers and the guest driver are left out.
- **Loop devices and external commands.**
  - The loop driver's choice of device is "the first free one" of an explicit list.
  - Running the binder_device binary is recorded as a command with its verdict; its effect on the host is not tracked.
  - `os.Stat` and `CheckVirtualNumber` enter as their answers.
- **Concurrency.** There is no locking around the check-then-act steps of `PullImage` and `StartContainer`, and the model treats them as sequential.
- **Logging** is left out.
- **Error messages** are reduced to error kinds. `errors.Wrap` of an error keeps its kind.
- **PodInstance.CleanGuest does not model the home directory's removal.** `DeleteHomeDir` enters as its verdict `homeDeleted`, and a refusal is the error returned. What the removal does to the file system is not modelled, because the model has no file system.
- **Clean-up of pod volumes.**
  - `PodInstance.CleanVolumes` requires every disk index to be in range; the source indexes the disk list without a check (`pod.go:106`).
  - Detaching the loop devices of those paths is not modelled.
- **`path.Join` and `filepath.Join`** are modelled without lexical cleaning of `..` and doubled slashes.
- **`time.ParseDuration`** is a parameter that returns nanoseconds or nothing. The float threshold of alerts is carried as a `real` and never computed with.
- **`ContainerModels.HostSpec` has no environment list and no lxcfs flag.** `ToHostContainerSpec` copies the whole control-plane container spec (`pkg/compute/models/containers.go:449-452`), including `Envs` and `EnableLxcfs` (`pkg/apis/container.go:22-37`). The model's `ContainerModels.Spec` carries neither, since no validation or conversion reads them, so they are not modelled as copied.
- **`NewMetricQuerySelect`** is modelled as the list of parts it wraps.
- **`GetDiskMountPoint`** is a parameter of `DiskVolume.Mount` and `DiskVolume.Unmount`.
- **`DiskVolume.PodDisk` requires the mount to have a disk.** The source dereferences it without a check.
- **`ValidateCreateData`** (`pkg/compute/models/containers.go:115-129`) is left out. Apart from the spec validation that `ContainerModels.ValidateSpec` models, it only checks for an empty guest id and fetches the guest.
- **The sandbox config's security context and other fixed fields** are left out. The model keeps the name, uid, namespace, attempt, hostname, log directory and port mappings.
- **The debug flag of the multi-cloud tool and the concrete cloud adapters** are left out. Building a provider is the parameter `build`.
- **Unknown constants.** The values of `VALID_CONTAINER_DEVICE_TYPES`, `CONTAINER_DEV_HOST` and `CONTAINER_STORAGE_LOCAL_RAW` are defined outside this model. They are kept abstract as a set parameter and datatype tags.
- **`LocalRaw.DeviceType`** returns the local raw tag and has no contract of its own. Its value is the datatype constructor.
- **The volume mount parser** `parseContainerVolumeMount` and its tests are not part of this model.
