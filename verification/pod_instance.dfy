/** A pod guest on the host (pkg/hostman/guestman/pod.go): starting its CRI
    sandbox, the life cycle of its containers against the runtime, the
    local container registry, image pulls and clean-up.

    Every operation takes the pod and the runtime and returns both, with
    its result. Calls to the control plane (`SetMetadata`) are given as
    their outcome; the device managers as a lookup. */
module PodInstance {
  import opened Wrappers
  import Apis
  import Cri
  import CriClient
  import Reg = ContainerRegistry
  import Strings
  import GuestRuntime

  /** The CRI metadata of a guest descriptor: the sandbox id under `cri_id`
      ("" when absent) and the sandbox config stored under `cri_config`
      (`None` when absent or not parseable). */
  datatype CriMeta = CriMeta(criId: string, criConfig: Option<Cri.SandboxConfig>)

  /** `computeapi.PodPortMapping`; the protocol is the raw string. */
  datatype PortMapping = PortMapping(protocol: string, containerPort: int, hostPort: int, hostIp: string)

  datatype PodVolumeDisk = PodVolumeDisk(diskIndex: int)

  datatype PodVolume = PodVolume(name: string, disk: Option<PodVolumeDisk>)

  /** The parts of the pod create input the host reads. */
  datatype PodCreateInput = PodCreateInput(portMappings: seq<PortMapping>, volumes: seq<PodVolume>)

  /** A pod guest: its identity, the descriptor fields the pod reads, the
      create parameters stored in the descriptor (`None` when missing or not
      parseable), the paths of its disks, the CRI metadata of its live
      (`desc`) and source (`source`) descriptors, and its registry. */
  datatype Pod = Pod(
    id: string,
    serversPath: string,
    name: string,
    tenantId: string,
    hostname: string,
    createParams: Option<PodCreateInput>,
    diskPaths: seq<string>,
    desc: CriMeta,
    source: CriMeta,
    registry: Reg.Registry)

  /** The pod and the runtime after an operation, and its result. */
  datatype Out<+T> = Out(pod: Pod, rt: Cri.Runtime, res: Result<T>)

  // ---------------------------------------------------------------------
  // Sandbox

  /** `getPodLogDir`: the directory `logs` inside the pod's home
      directory. */
  function LogDir(pod: Pod): (r: string)
    ensures GuestRuntime.HomeDir(pod.serversPath, pod.id) != "" ==>
              r == GuestRuntime.HomeDir(pod.serversPath, pod.id) + "/logs"
  {
    Strings.PathJoin(GuestRuntime.HomeDir(pod.serversPath, pod.id), "logs")
  }

  /** The CRI protocol of a port-mapping protocol string, if it names one. */
  function ParseProtocol(p: string): (r: Option<Cri.Protocol>)
    ensures r == Some(Cri.TCP) <==> p == Apis.PROTOCOL_TCP
    ensures r == Some(Cri.UDP) <==> p == Apis.PROTOCOL_UDP
    ensures r == Some(Cri.SCTP) <==> p == Apis.PROTOCOL_SCTP
  {
    if p == Apis.PROTOCOL_TCP then Some(Cri.TCP)
    else if p == Apis.PROTOCOL_UDP then Some(Cri.UDP)
    else if p == Apis.PROTOCOL_SCTP then Some(Cri.SCTP)
    else None
  }

  predicate ValidProtocol(pm: PortMapping)
  {
    ParseProtocol(pm.protocol).Some?
  }

  /** The port-mapping loop of `startPod`: every mapping is translated in
      place, and any unknown protocol fails the whole translation. */
  function TranslatePortMappings(pms: seq<PortMapping>): (r: Result<seq<Cri.PortMapping>>)
    ensures r.Ok? <==> forall i :: 0 <= i < |pms| ==> ValidProtocol(pms[i])
    ensures r.Err? ==> r.error == InputParameter
    ensures r.Ok? ==>
              |r.value| == |pms| &&
              forall i :: 0 <= i < |pms| ==>
                r.value[i] == Cri.PortMapping(ParseProtocol(pms[i].protocol).value,
                                              pms[i].containerPort, pms[i].hostPort, pms[i].hostIp)
  {
    if |pms| == 0 then Ok([])
    else
      var pm := pms[0];
      match ParseProtocol(pm.protocol)
      case None => Err(InputParameter)
      case Some(protocol) =>
        var rest :- TranslatePortMappings(pms[1..]);
        assert forall i :: 1 <= i < |pms| ==> pms[i] == pms[1..][i - 1];
        Ok([Cri.PortMapping(protocol, pm.containerPort, pm.hostPort, pm.hostIp)] + rest)
  }

  /** The sandbox config `startPod` builds: the pod's name, id, tenant and
      hostname, the first attempt, the pod's log directory and the
      translated port mappings. */
  function SandboxConfigFor(pod: Pod, mappings: seq<Cri.PortMapping>): (c: Cri.SandboxConfig)
    ensures c.name == pod.name && c.uid == pod.id && c.namespace == pod.tenantId
    ensures c.attempt == 1 && c.hostname == pod.hostname
    ensures c.logDirectory == LogDir(pod) && c.portMappings == mappings
  {
    Cri.SandboxConfig(pod.name, pod.id, pod.tenantId, 1, pod.hostname, LogDir(pod), mappings)
  }

  /** `setCRIInfo`: the live descriptor records the sandbox id and config;
      the control plane is told (`upstreamOk` is its answer); on success the
      live descriptor becomes the source descriptor. */
  function SetCriInfo(pod: Pod, criId: string, config: Cri.SandboxConfig, upstreamOk: bool): (r: (Pod, Result<()>))
    ensures r.0.desc == CriMeta(criId, Some(config))
    ensures r.1.Ok? <==> upstreamOk
    ensures r.1.Ok? ==> r.0.source == r.0.desc
    ensures r.1.Err? ==> r.0.source == pod.source && r.1.error == Rejected
    ensures r.0.(desc := pod.desc, source := pod.source) == pod
  {
    var updated := pod.(desc := CriMeta(criId, Some(config)));
    if !upstreamOk then (updated, Err(Rejected))
    else (updated.(source := updated.desc), Ok(()))
  }

  /** `computeapi.PodStartResponse`. */
  datatype PodStartResponse = PodStartResponse(criId: string, isRunning: bool)

  /** `startPod`: builds the sandbox config from the descriptor and the
      translated port mappings, runs the sandbox, then records it. */
  function StartPod(pod: Pod, rt: Cri.Runtime, upstreamOk: bool): (r: Out<PodStartResponse>)
    ensures pod.createParams.None? ==> r == Out(pod, rt, Err(InvalidFormat))
    ensures pod.createParams.Some? &&
            (exists i :: 0 <= i < |pod.createParams.value.portMappings| &&
                         !ValidProtocol(pod.createParams.value.portMappings[i])) ==>
              r == Out(pod, rt, Err(InputParameter))
    ensures r.rt != rt ==>
              pod.createParams.Some? &&
              var mappings := TranslatePortMappings(pod.createParams.value.portMappings);
              mappings.Ok? &&
              r.rt.trace == rt.trace + [Cri.RunPodSandbox(SandboxConfigFor(pod, mappings.value), "")]
    ensures r.res.Ok? ==>
              r.res.value == PodStartResponse(Cri.MintId(rt.minted), false) &&
              r.pod.source == r.pod.desc &&
              r.pod.source.criId == r.res.value.criId &&
              r.pod.source.criConfig.Some? &&
              r.pod.source.criConfig.value.uid == pod.id &&
              r.pod.source.criConfig.value.attempt == 1 &&
              |r.pod.source.criConfig.value.portMappings| == |pod.createParams.value.portMappings| &&
              r.res.value.criId in r.rt.sandboxes
  {
    match pod.createParams
    case None => Out(pod, rt, Err(InvalidFormat))
    case Some(input) =>
      var mappings := TranslatePortMappings(input.portMappings);
      if mappings.Err? then Out(pod, rt, Err(mappings.error))
      else
        var config := SandboxConfigFor(pod, mappings.value);
        var run := Cri.RunPod(rt, config, "");
        if run.res.Err? then Out(pod, run.rt, Err(run.res.error))
        else
          var info := SetCriInfo(pod, run.res.value, config, upstreamOk);
          if info.1.Err? then Out(info.0, run.rt, Err(info.1.error))
          else Out(info.0, run.rt, Ok(PodStartResponse(run.res.value, false)))
  }

  // ---------------------------------------------------------------------
  // Containers

  /** `hostapi.ContainerSpec` as far as the host reads it. */
  datatype ContainerSpec = ContainerSpec(
    image: string,
    imagePullPolicy: string,
    command: seq<string>,
    args: seq<string>,
    workingDir: string,
    envs: seq<Cri.KeyValue>,
    devices: seq<Apis.ContainerDevice>)

  /** `hostapi.ContainerCreateInput`. */
  datatype ContainerCreateInput = ContainerCreateInput(name: string, guestId: string, spec: ContainerSpec)

  /** The container device managers of the host: the device types that have
      one, and what each one's `NewContainerDevices` answers. */
  datatype DeviceManagers = DeviceManagers(
    registered: set<Apis.DeviceType>,
    newContainerDevices: (Apis.DeviceType, Apis.ContainerDevice) -> Result<seq<Cri.Device>>)

  /** The answers of the collaborators a container operation consults. */
  datatype Env = Env(managers: DeviceManagers, containerMetaOk: bool)

  /** A host device, copied field for field. */
  function HostDevice(dev: Apis.ContainerDevice): Cri.Device
  {
    Cri.Device(dev.containerPath, dev.path, dev.permissions)
  }

  /** The CRI devices one requested device turns into. */
  function TranslateDevice(dev: Apis.ContainerDevice, managers: DeviceManagers): Result<seq<Cri.Device>>
  {
    if dev.deviceType == Apis.HostDeviceType then Ok([HostDevice(dev)])
    else if dev.deviceType !in managers.registered then Err(NotFound)
    else managers.newContainerDevices(dev.deviceType, dev)
  }

  /** The device loop of `createContainer`: all devices translate, in order,
      or the first failure is reported. */
  function TranslateDevices(devs: seq<Apis.ContainerDevice>, managers: DeviceManagers): (r: Result<seq<Cri.Device>>)
    ensures r.Ok? <==> forall i :: 0 <= i < |devs| ==> TranslateDevice(devs[i], managers).Ok?
    ensures (forall i :: 0 <= i < |devs| ==> devs[i].deviceType == Apis.HostDeviceType) ==>
              r.Ok? && |r.value| == |devs| &&
              forall i :: 0 <= i < |devs| ==> r.value[i] == HostDevice(devs[i])
  {
    if |devs| == 0 then Ok([])
    else
      var first :- TranslateDevice(devs[0], managers);
      var rest :- TranslateDevices(devs[1..], managers);
      assert forall i :: 1 <= i < |devs| ==> devs[i] == devs[1..][i - 1];
      Ok(first + rest)
  }

  /** One device translates to exactly what its own translation gives. */
  lemma TranslateOneDevice(dev: Apis.ContainerDevice, managers: DeviceManagers)
    ensures TranslateDevices([dev], managers) == TranslateDevice(dev, managers)
  {
    assert [dev][1..] == [];
    if TranslateDevice(dev, managers).Ok? {
      assert TranslateDevice(dev, managers).value + [] == TranslateDevice(dev, managers).value;
    }
  }

  /** Translating a list is translating its two halves and concatenating
      the devices, in order. */
  lemma {:induction false} TranslateDevicesAppend(xs: seq<Apis.ContainerDevice>, ys: seq<Apis.ContainerDevice>,
                                                  managers: DeviceManagers)
    requires TranslateDevices(xs + ys, managers).Ok?
    ensures TranslateDevices(xs, managers).Ok? && TranslateDevices(ys, managers).Ok?
    ensures TranslateDevices(xs + ys, managers).value ==
            TranslateDevices(xs, managers).value + TranslateDevices(ys, managers).value
  {
    if |xs| == 0 {
      assert xs + ys == ys;
    } else {
      assert (xs + ys)[0] == xs[0];
      assert (xs + ys)[1..] == xs[1..] + ys;
      TranslateDevicesAppend(xs[1..], ys, managers);
      var first := TranslateDevice(xs[0], managers).value;
      assert first + (TranslateDevices(xs[1..], managers).value + TranslateDevices(ys, managers).value) ==
             (first + TranslateDevices(xs[1..], managers).value) + TranslateDevices(ys, managers).value;
    }
  }

  /** A device of a non-host type without a registered manager makes the
      translation fail. */
  lemma UnmanagedDeviceFails(devs: seq<Apis.ContainerDevice>, managers: DeviceManagers, i: int)
    requires 0 <= i < |devs|
    requires devs[i].deviceType != Apis.HostDeviceType && devs[i].deviceType !in managers.registered
    ensures TranslateDevices(devs, managers).Err?
  {
    assert !TranslateDevice(devs[i], managers).Ok?;
  }

  /** The log path of a container, `<id>.log`. */
  function LogPath(ctrId: string): (r: string)
    ensures |r| == |ctrId| + 4 && r[..|ctrId|] == ctrId && r[|ctrId|..] == ".log"
  {
    ctrId + ".log"
  }

  /** Different containers log to different paths. */
  lemma LogPathsDistinct(a: string, b: string)
    requires a != b
    ensures LogPath(a) != LogPath(b)
  {
    if |a| == |b| {
      assert LogPath(a)[..|a|] == a && LogPath(b)[..|b|] == b;
    }
  }

  /** The container config `createContainer` builds: the input's name and
      image, command and args only when non-empty, no environment, the
      container's log path, the translated devices and the one added
      capability SYS_ADMIN. */
  function ContainerConfigFor(ctrId: string, input: ContainerCreateInput, devices: seq<Cri.Device>): (c: Cri.ContainerConfig)
    ensures c.name == input.name && c.image.image == input.spec.image
    ensures (c.command.Some? <==> |input.spec.command| != 0) &&
            (c.command.Some? ==> c.command.value == input.spec.command)
    ensures (c.args.Some? <==> |input.spec.args| != 0) &&
            (c.args.Some? ==> c.args.value == input.spec.args)
    ensures c.envs == [] && c.logPath == LogPath(ctrId)
    ensures c.devices == devices && c.addCapabilities == ["SYS_ADMIN"]
  {
    Cri.ContainerConfig(
      input.name,
      Cri.ImageSpec(input.spec.image, map[]),
      if |input.spec.command| != 0 then Some(input.spec.command) else None,
      if |input.spec.args| != 0 then Some(input.spec.args) else None,
      LogPath(ctrId),
      [],
      devices,
      ["SYS_ADMIN"])
  }

  /** What a create call built by `createContainer` carries: the pod's
      sandbox id and stored config, the input's name and image, command and
      args only when non-empty, no environment, the container's log path,
      the requested devices as the managers translate them, and the one
      added capability SYS_ADMIN. */
  predicate IsCreateFor(c: Cri.Call, pod: Pod, ctrId: string, input: ContainerCreateInput, managers: DeviceManagers)
  {
    c.CreateContainer? &&
    c.podId == pod.source.criId &&
    pod.source.criConfig == Some(c.sandboxConfig) &&
    c.config.name == input.name &&
    c.config.image.image == input.spec.image &&
    (c.config.command.Some? <==> |input.spec.command| != 0) &&
    (c.config.command.Some? ==> c.config.command.value == input.spec.command) &&
    (c.config.args.Some? <==> |input.spec.args| != 0) &&
    (c.config.args.Some? ==> c.config.args.value == input.spec.args) &&
    c.config.envs == [] &&
    c.config.logPath == LogPath(ctrId) &&
    TranslateDevices(input.spec.devices, managers).Ok? &&
    c.config.devices == TranslateDevices(input.spec.devices, managers).value &&
    c.config.addCapabilities == ["SYS_ADMIN"]
  }

  /** `createContainer`: translates the devices, reads the stored sandbox
      config, asks the runtime to create the container (without pulling)
      and only then records it. An id already in the registry is refused
      after the runtime has created the container. */
  function CreateContainerRecord(pod: Pod, rt: Cri.Runtime, ctrId: string, input: ContainerCreateInput,
                                 managers: DeviceManagers): (r: Out<string>)
    ensures TranslateDevices(input.spec.devices, managers).Err? ==> r.rt == rt && r.pod == pod && r.res.Err?
    ensures pod.source.criConfig.None? ==> r.rt == rt && r.pod == pod && r.res.Err?
    ensures r.rt == rt || (|r.rt.trace| == |rt.trace| + 1 && r.rt.trace[..|rt.trace|] == rt.trace &&
                           IsCreateFor(r.rt.trace[|rt.trace|], pod, ctrId, input, managers))
    ensures TranslateDevices(input.spec.devices, managers).Ok? && pod.source.criConfig.Some? ==> r.rt != rt
    ensures ctrId in pod.registry.entries ==> r.res.Err? && r.pod == pod
    ensures r.res.Err? ==> r.pod == pod
    ensures r.res.Ok? ==>
              r.rt != rt &&
              r.pod == pod.(registry := Reg.Save(pod.registry, ctrId, r.res.value).0) &&
              Reg.Lookup(r.pod.registry, ctrId) == Ok(r.res.value) &&
              r.res.value in r.rt.containers && r.rt.containers[r.res.value] == Cri.StateCreated
  {
    var devices := TranslateDevices(input.spec.devices, managers);
    if devices.Err? then Out(pod, rt, Err(devices.error))
    else if pod.source.criConfig.None? then Out(pod, rt, Err(InvalidFormat))
    else
      var config := ContainerConfigFor(ctrId, input, devices.value);
      var created := CriClient.CreateContainer(rt, pod.source.criId, pod.source.criConfig.value, config, false);
      if created.res.Err? then Out(pod, created.rt, Err(created.res.error))
      else
        var saved := Reg.Save(pod.registry, ctrId, created.res.value);
        if saved.1.Err? then Out(pod, created.rt, Err(saved.1.error))
        else Out(pod.(registry := saved.0), created.rt, Ok(created.res.value))
  }

  /** `CreateContainer`: `createContainer`, then the control plane is told the
      container's CRI id. When that fails the record stays. */
  method CreateContainer(pod: Pod, rt: Cri.Runtime, ctrId: string, input: ContainerCreateInput, env: Env)
    returns (r: Out<()>)
    ensures r.rt == rt || (|r.rt.trace| == |rt.trace| + 1 && r.rt.trace[..|rt.trace|] == rt.trace &&
                           IsCreateFor(r.rt.trace[|rt.trace|], pod, ctrId, input, env.managers))
    ensures r.res.Ok? ==> r.rt != rt && env.containerMetaOk
    ensures ctrId in pod.registry.entries ==> r.res.Err? && r.pod == pod
    ensures r.pod == pod || (ctrId !in pod.registry.entries && ctrId in r.pod.registry.entries &&
                             r.pod == pod.(registry := Reg.Save(pod.registry, ctrId, r.pod.registry.entries[ctrId].criId).0) &&
                             r.pod.registry.entries[ctrId].criId in r.rt.containers &&
                             r.rt.containers[r.pod.registry.entries[ctrId].criId] == Cri.StateCreated)
    ensures r.res.Ok? ==> r.pod != pod
  {
    var created := CreateContainerRecord(pod, rt, ctrId, input, env.managers);
    if created.res.Err? {
      r := Out(created.pod, created.rt, Err(created.res.error));
    } else if !env.containerMetaOk {
      r := Out(created.pod, created.rt, Err(Rejected));
    } else {
      r := Out(created.pod, created.rt, Ok(()));
    }
  }

  /** `DeleteContainer`: an unknown id is tolerated; the runtime is asked to
      remove the container only when a non-empty CRI id was recorded; then
      the record goes. */
  function DeleteContainer(pod: Pod, rt: Cri.Runtime, ctrId: string): (r: Out<()>)
    ensures var recorded := if ctrId in pod.registry.entries then pod.registry.entries[ctrId].criId else "";
            r.rt.trace == rt.trace + (if recorded != "" then [Cri.RemoveContainer(recorded)] else [])
    ensures ctrId !in pod.registry.entries ==> r.res.Ok? && r.rt == rt
    ensures r.res.Err? ==> r.pod == pod
    ensures r.res.Ok? ==> r.pod == pod.(registry := Reg.Remove(pod.registry, ctrId))
    ensures r.res.Ok? ==> ctrId !in r.pod.registry.entries
  {
    var recorded := Reg.Lookup(pod.registry, ctrId);
    var criId := if recorded.Ok? then recorded.value else "";
    if criId != "" then
      var removed := Cri.Remove(rt, criId);
      if removed.res.Err? then Out(pod, removed.rt, Err(removed.res.error))
      else Out(pod.(registry := Reg.Remove(pod.registry, ctrId)), removed.rt, Ok(()))
    else Out(pod.(registry := Reg.Remove(pod.registry, ctrId)), rt, Ok(()))
  }

  /** Deleting twice: the second delete succeeds without any runtime call
      and changes nothing more. */
  lemma DeleteTwice(pod: Pod, rt: Cri.Runtime, ctrId: string)
    requires DeleteContainer(pod, rt, ctrId).res.Ok?
    ensures var first := DeleteContainer(pod, rt, ctrId);
            var second := DeleteContainer(first.pod, first.rt, ctrId);
            second.res.Ok? && second.rt == first.rt &&
            second.pod.registry.entries == first.pod.registry.entries
  {
    var first := DeleteContainer(pod, rt, ctrId);
    Reg.RemoveIdempotent(pod.registry, ctrId);
  }

  /** The orchestration status of a CRI container state. */
  function MapState(s: Cri.ContainerState): (r: Apis.ContainerStatus)
    ensures r == Apis.Created <==> s == Cri.StateCreated
    ensures r == Apis.Running <==> s == Cri.StateRunning
    ensures r == Apis.Exited <==> s == Cri.StateExited
    ensures r == Apis.Unknown <==> s == Cri.StateUnknown
  {
    match s
    case StateCreated => Apis.Created
    case StateRunning => Apis.Running
    case StateExited => Apis.Exited
    case StateUnknown => Apis.Unknown
  }

  /** The CRI id recorded for a container, "" when there is none. */
  function RecordedCriId(pod: Pod, ctrId: string): string
  {
    if ctrId in pod.registry.entries then pod.registry.entries[ctrId].criId else ""
  }

  /** The status `getContainerStatus` would report, if it succeeds. */
  function StatusSeen(pod: Pod, rt: Cri.Runtime, ctrId: string): Option<Apis.ContainerStatus>
  {
    var c := RecordedCriId(pod, ctrId);
    if ctrId in pod.registry.entries && Cri.ContainerStatus(c) !in rt.rejects && c in rt.containers
    then Some(MapState(rt.containers[c]))
    else None
  }

  /** `getContainerStatus`: the CRI state of the recorded container, mapped
      to a status. */
  function GetContainerStatus(pod: Pod, rt: Cri.Runtime, ctrId: string): (r: Cri.Reply<Apis.ContainerStatus>)
    ensures ctrId !in pod.registry.entries ==> r == Cri.Reply(rt, Err(NotFound))
    ensures ctrId in pod.registry.entries ==>
              r.rt == rt.(trace := rt.trace + [Cri.ContainerStatus(RecordedCriId(pod, ctrId))])
    ensures r.res.Ok? <==> StatusSeen(pod, rt, ctrId).Some?
    ensures r.res.Ok? ==> r.res.value == StatusSeen(pod, rt, ctrId).value
  {
    if ctrId !in pod.registry.entries then Cri.Reply(rt, Err(NotFound))
    else
    var status := Cri.Status(rt, pod.registry.entries[ctrId].criId);
    if status.res.Err? then Cri.Reply(status.rt, Err(status.res.error))
    else Cri.Reply(status.rt, Ok(MapState(status.res.value)))
  }

  /** `computeapi.ContainerSyncStatusResponse`. */
  datatype SyncStatusResponse = SyncStatusResponse(status: Apis.ContainerStatus)

  /** `SyncContainerStatus`: the status, wrapped in a response. */
  function SyncContainerStatus(pod: Pod, rt: Cri.Runtime, ctrId: string): (r: Cri.Reply<SyncStatusResponse>)
    ensures r.rt == GetContainerStatus(pod, rt, ctrId).rt
    ensures r.res.Ok? <==> StatusSeen(pod, rt, ctrId).Some?
    ensures r.res.Ok? ==> r.res.value.status == StatusSeen(pod, rt, ctrId).value
  {
    var status := GetContainerStatus(pod, rt, ctrId);
    match status.res
    case Err(e) => Cri.Reply(status.rt, Err(e))
    case Ok(s) => Cri.Reply(status.rt, Ok(SyncStatusResponse(s)))
  }

  /** `StopContainer`: stops the recorded container with the requested
      timeout, 0 when none is given. */
  function StopContainer(pod: Pod, rt: Cri.Runtime, ctrId: string, timeout: Option<int>): (r: Cri.Reply<()>)
    ensures ctrId !in pod.registry.entries ==> r == Cri.Reply(rt, Err(NotFound))
    ensures ctrId in pod.registry.entries ==>
              r.rt.trace == rt.trace + [Cri.StopContainer(RecordedCriId(pod, ctrId),
                                                          if timeout.Some? then timeout.value else 0)]
    ensures r.res.Ok? ==> r.rt.containers == rt.containers[RecordedCriId(pod, ctrId) := Cri.StateExited]
  {
    match Reg.Lookup(pod.registry, ctrId)
    case Err(e) => Cri.Reply(rt, Err(e))
    case Ok(criId) => Cri.Stop(rt, criId, if timeout.Some? then timeout.value else 0)
  }

  /** The result of `StartContainer`: the container was started, or its
      status allowed neither a start nor a recreate. The source returns
      no error in the second case (it wraps a nil error). */
  datatype StartOutcome = Started | Declined(status: Apis.ContainerStatus)

  /** Starts the recorded container. */
  function StartRecorded(pod: Pod, rt: Cri.Runtime, ctrId: string): (r: Out<StartOutcome>)
    ensures r.pod == pod
    ensures ctrId !in pod.registry.entries ==> r == Out(pod, rt, Err(NotFound))
    ensures ctrId in pod.registry.entries ==>
              r.rt.trace == rt.trace + (if RecordedCriId(pod, ctrId) != ""
                                        then [Cri.StartContainer(RecordedCriId(pod, ctrId))] else [])
    ensures r.res.Ok? ==> r.res.value == Started && ctrId in pod.registry.entries &&
                          RecordedCriId(pod, ctrId) != "" &&
                          RecordedCriId(pod, ctrId) in r.rt.containers &&
                          r.rt.containers[RecordedCriId(pod, ctrId)] == Cri.StateRunning
  {
    match Reg.Lookup(pod.registry, ctrId)
    case Err(e) => Out(pod, rt, Err(e))
    case Ok(criId) =>
      var started := CriClient.StartContainer(rt, criId);
      if started.res.Err? then Out(pod, started.rt, Err(started.res.error))
      else Out(pod, started.rt, Ok(Started))
  }

  /** A container reported started is recorded, running in the runtime,
      and the last call issued started it. */
  predicate StartedFacts(r: Out<StartOutcome>, ctrId: string)
  {
    ctrId in r.pod.registry.entries && |r.rt.trace| > 0 &&
    RecordedCriId(r.pod, ctrId) in r.rt.containers &&
    r.rt.containers[RecordedCriId(r.pod, ctrId)] == Cri.StateRunning &&
    r.rt.trace[|r.rt.trace| - 1] == Cri.StartContainer(RecordedCriId(r.pod, ctrId))
  }

  /** Creates the container, then starts it; the first call issued, if any,
      is the create call `createContainer` builds. */
  method CreateThenStart(pod: Pod, rt: Cri.Runtime, ctrId: string, input: ContainerCreateInput, env: Env)
    returns (r: Out<StartOutcome>)
    ensures rt.trace <= r.rt.trace
    ensures |r.rt.trace| > |rt.trace| ==> IsCreateFor(r.rt.trace[|rt.trace|], pod, ctrId, input, env.managers)
    ensures Cri.Kinds(Cri.Issued(rt, r.rt)) <= [Cri.KCreate, Cri.KStart]
    ensures r.res.Ok? ==> Cri.Kinds(Cri.Issued(rt, r.rt)) == [Cri.KCreate, Cri.KStart]
    ensures r.res.Ok? ==> r.res.value == Started && StartedFacts(r, ctrId)
  {
    var created := CreateContainer(pod, rt, ctrId, input, env);
    if created.res.Err? {
      r := Out(created.pod, created.rt, Err(created.res.error));
      if created.rt != rt {
        assert Cri.Issued(rt, r.rt) == [created.rt.trace[|rt.trace|]];
      }
      return;
    }
    var create := created.rt.trace[|rt.trace|];
    assert Cri.Issued(rt, created.rt) == [create];
    r := StartRecorded(created.pod, created.rt, ctrId);
    var c := RecordedCriId(created.pod, ctrId);
    if c != "" {
      assert Cri.Issued(rt, r.rt) == [create, Cri.StartContainer(c)];
    } else {
      assert Cri.Issued(rt, r.rt) == [create];
    }
  }

  /** The recreate branch of `StartContainer`: delete, create, start. */
  method RecreateThenStart(pod: Pod, rt: Cri.Runtime, ctrId: string, input: ContainerCreateInput, env: Env)
    returns (r: Out<StartOutcome>)
    ensures rt.trace <= r.rt.trace
    ensures var deletes := if RecordedCriId(pod, ctrId) != "" then [Cri.KRemove] else [];
            Cri.Kinds(Cri.Issued(rt, r.rt)) <= deletes + [Cri.KCreate, Cri.KStart] &&
            (r.res.Ok? ==> Cri.Kinds(Cri.Issued(rt, r.rt)) == deletes + [Cri.KCreate, Cri.KStart])
    ensures var d := if RecordedCriId(pod, ctrId) != "" then 1 else 0;
            |r.rt.trace| > |rt.trace| + d ==> IsCreateFor(r.rt.trace[|rt.trace| + d], pod, ctrId, input, env.managers)
    ensures r.res.Ok? ==> r.res.value == Started && StartedFacts(r, ctrId)
  {
    var deleted := DeleteContainer(pod, rt, ctrId);
    var deletes := if RecordedCriId(pod, ctrId) != "" then [Cri.KRemove] else [];
    assert Cri.Kinds(Cri.Issued(rt, deleted.rt)) == deletes;
    if deleted.res.Err? {
      r := Out(deleted.pod, deleted.rt, Err(deleted.res.error));
      assert deletes <= deletes + [Cri.KCreate, Cri.KStart];
      return;
    }
    r := CreateThenStart(deleted.pod, deleted.rt, ctrId, input, env);
    Cri.IssuedAppend(rt, deleted.rt, r.rt);
    Cri.KindsAppend(Cri.Issued(rt, deleted.rt), Cri.Issued(deleted.rt, r.rt));
    Cri.KindsPrefixCons(deletes, Cri.Kinds(Cri.Issued(deleted.rt, r.rt)), [Cri.KCreate, Cri.KStart]);
  }

  /** What `StartContainer` does with a recorded container once its status
      is known; `rt` is the runtime after the status query. */
  method ActOnStatus(pod: Pod, rt: Cri.Runtime, ctrId: string, status: Apis.ContainerStatus,
                     input: ContainerCreateInput, env: Env) returns (r: Out<StartOutcome>)
    requires ctrId in pod.registry.entries
    ensures rt.trace <= r.rt.trace
    ensures status == Apis.Exited ==>
              var deletes := if RecordedCriId(pod, ctrId) != "" then [Cri.KRemove] else [];
              Cri.Kinds(Cri.Issued(rt, r.rt)) <= deletes + [Cri.KCreate, Cri.KStart] &&
              (r.res.Ok? ==> Cri.Kinds(Cri.Issued(rt, r.rt)) == deletes + [Cri.KCreate, Cri.KStart])
    ensures status == Apis.Created ==>
              var c := RecordedCriId(pod, ctrId);
              r.pod == pod && r.rt.trace == rt.trace + (if c != "" then [Cri.StartContainer(c)] else [])
    ensures status != Apis.Exited && status != Apis.Created ==> r == Out(pod, rt, Ok(Declined(status)))
    ensures r.res == Ok(Started) ==> StartedFacts(r, ctrId)
  {
    if status == Apis.Exited {
      r := RecreateThenStart(pod, rt, ctrId, input, env);
    } else if status == Apis.Created {
      r := StartRecorded(pod, rt, ctrId);
    } else {
      r := Out(pod, rt, Ok(Declined(status)));
    }
  }

  /** `StartContainer` for a recorded container: query its status, then act
      on it. */
  method StartKnown(pod: Pod, rt: Cri.Runtime, ctrId: string, input: ContainerCreateInput, env: Env)
    returns (r: Out<StartOutcome>)
    requires ctrId in pod.registry.entries
    ensures rt.trace <= r.rt.trace
    ensures StatusSeen(pod, rt, ctrId).None? ==>
              r.res.Err? && r.pod == pod &&
              r.rt.trace == rt.trace + [Cri.ContainerStatus(RecordedCriId(pod, ctrId))]
    ensures StatusSeen(pod, rt, ctrId) == Some(Apis.Exited) ==>
              var deletes := if RecordedCriId(pod, ctrId) != "" then [Cri.KRemove] else [];
              Cri.Kinds(Cri.Issued(rt, r.rt)) <= [Cri.KStatus] + deletes + [Cri.KCreate, Cri.KStart] &&
              (r.res.Ok? ==> Cri.Kinds(Cri.Issued(rt, r.rt)) == [Cri.KStatus] + deletes + [Cri.KCreate, Cri.KStart])
    ensures StatusSeen(pod, rt, ctrId) == Some(Apis.Created) ==>
              var c := RecordedCriId(pod, ctrId);
              r.pod == pod &&
              r.rt.trace == rt.trace + [Cri.ContainerStatus(c)] + (if c != "" then [Cri.StartContainer(c)] else [])
    ensures StatusSeen(pod, rt, ctrId).Some? && StatusSeen(pod, rt, ctrId).value != Apis.Exited && StatusSeen(pod, rt, ctrId).value != Apis.Created ==>
              r == Out(pod, rt.(trace := rt.trace + [Cri.ContainerStatus(RecordedCriId(pod, ctrId))]),
                       Ok(Declined(StatusSeen(pod, rt, ctrId).value)))
    ensures r.res == Ok(Started) ==> StartedFacts(r, ctrId)
  {
    var status := GetContainerStatus(pod, rt, ctrId);
    if status.res.Err? {
      r := Out(pod, status.rt, Err(status.res.error));
      return;
    }
    r := ActOnStatus(pod, status.rt, ctrId, status.res.value, input, env);
    if status.res.value == Apis.Exited {
      var deletes := if RecordedCriId(pod, ctrId) != "" then [Cri.KRemove] else [];
      Cri.KindsAfterOne(rt, status.rt, r.rt, Cri.ContainerStatus(RecordedCriId(pod, ctrId)));
      Cri.KindsPrefixCons([Cri.KStatus], Cri.Kinds(Cri.Issued(status.rt, r.rt)), deletes + [Cri.KCreate, Cri.KStart]);
      assert [Cri.KStatus] + (deletes + [Cri.KCreate, Cri.KStart]) == [Cri.KStatus] + deletes + [Cri.KCreate, Cri.KStart];
    }
  }

  /** `StartContainer`. An unknown container is created and started; for a
      recorded one the status is queried first: an exited container is
      deleted, recreated and started, a created one is started, and any
      other status is reported back without a start. */
  method StartContainer(pod: Pod, rt: Cri.Runtime, ctrId: string, input: ContainerCreateInput, env: Env)
    returns (r: Out<StartOutcome>)
    ensures rt.trace <= r.rt.trace
    ensures ctrId !in pod.registry.entries ==>
              Cri.Kinds(Cri.Issued(rt, r.rt)) <= [Cri.KCreate, Cri.KStart] &&
              (r.res.Ok? ==> Cri.Kinds(Cri.Issued(rt, r.rt)) == [Cri.KCreate, Cri.KStart])
    ensures ctrId !in pod.registry.entries && |r.rt.trace| > |rt.trace| ==>
              IsCreateFor(r.rt.trace[|rt.trace|], pod, ctrId, input, env.managers)
    ensures ctrId in pod.registry.entries && StatusSeen(pod, rt, ctrId).None? ==>
              r.res.Err? && r.pod == pod &&
              r.rt.trace == rt.trace + [Cri.ContainerStatus(RecordedCriId(pod, ctrId))]
    ensures StatusSeen(pod, rt, ctrId) == Some(Apis.Exited) ==>
              var deletes := if RecordedCriId(pod, ctrId) != "" then [Cri.KRemove] else [];
              Cri.Kinds(Cri.Issued(rt, r.rt)) <= [Cri.KStatus] + deletes + [Cri.KCreate, Cri.KStart] &&
              (r.res.Ok? ==> Cri.Kinds(Cri.Issued(rt, r.rt)) == [Cri.KStatus] + deletes + [Cri.KCreate, Cri.KStart])
    ensures StatusSeen(pod, rt, ctrId) == Some(Apis.Created) ==>
              var c := RecordedCriId(pod, ctrId);
              r.pod == pod &&
              r.rt.trace == rt.trace + [Cri.ContainerStatus(c)] + (if c != "" then [Cri.StartContainer(c)] else [])
    ensures StatusSeen(pod, rt, ctrId).Some? && StatusSeen(pod, rt, ctrId).value != Apis.Exited && StatusSeen(pod, rt, ctrId).value != Apis.Created ==>
              r == Out(pod, rt.(trace := rt.trace + [Cri.ContainerStatus(RecordedCriId(pod, ctrId))]),
                       Ok(Declined(StatusSeen(pod, rt, ctrId).value)))
    ensures r.res == Ok(Started) ==> StartedFacts(r, ctrId)
  {
    if ctrId !in pod.registry.entries {
      r := CreateThenStart(pod, rt, ctrId, input, env);
    } else {
      r := StartKnown(pod, rt, ctrId, input, env);
    }
  }

  // ---------------------------------------------------------------------
  // Images

  /** `hostapi.ContainerPullImageAuthConfig`. */
  datatype PullAuth = PullAuth(
    username: string,
    password: string,
    auth: string,
    serverAddress: string,
    identityToken: string,
    registryToken: string)

  /** `hostapi.ContainerPullImageInput`. */
  datatype PullImageInput = PullImageInput(image: string, pullPolicy: string, auth: Option<PullAuth>)

  /** The runtime auth config carries every field of the given one unchanged. */
  predicate CopiesAuth(given: Option<PullAuth>, sent: Option<Cri.AuthConfig>)
  {
    (given.Some? <==> sent.Some?) &&
    (given.Some? ==>
       sent.value.username == given.value.username &&
       sent.value.password == given.value.password &&
       sent.value.auth == given.value.auth &&
       sent.value.serverAddress == given.value.serverAddress &&
       sent.value.identityToken == given.value.identityToken &&
       sent.value.registryToken == given.value.registryToken)
  }

  function AuthFor(given: Option<PullAuth>): (r: Option<Cri.AuthConfig>)
    ensures CopiesAuth(given, r)
  {
    match given
    case None => None
    case Some(a) => Some(Cri.AuthConfig(a.username, a.password, a.auth, a.serverAddress, a.identityToken, a.registryToken))
  }

  /** The policies under which the cache is consulted first. */
  predicate ChecksCache(policy: string)
  {
    policy == Apis.IMAGE_PULL_POLICY_IF_NOT_PRESENT || policy == ""
  }

  /** `PullImage`: under IfNotPresent (or no policy) the runtime's image
      cache is queried first and a cached image is reported without
      pulling; otherwise, or on a miss, the image is pulled with the pod's
      sandbox config and the given credentials. */
  method PullImage(pod: Pod, rt: Cri.Runtime, input: PullImageInput) returns (r: Cri.Reply<string>)
    ensures rt.trace <= r.rt.trace
    ensures !ChecksCache(input.pullPolicy) ==> r == PullWithSandbox(pod, rt, input)
    ensures ChecksCache(input.pullPolicy) ==>
              var queried := rt.(trace := rt.trace + [Cri.ImageStatus(input.image)]);
              (Cri.ImageStatus(input.image) in rt.rejects ==> r == Cri.Reply(queried, Err(Rejected))) &&
              (Cri.ImageStatus(input.image) !in rt.rejects && input.image in rt.images ==>
                 r == Cri.Reply(queried, Ok(rt.images[input.image]))) &&
              (Cri.ImageStatus(input.image) !in rt.rejects && input.image !in rt.images ==>
                 r == PullWithSandbox(pod, queried, input))
    ensures r.res.Ok? ==> input.image in r.rt.images && r.res.value == r.rt.images[input.image]
  {
    if !ChecksCache(input.pullPolicy) {
      r := PullWithSandbox(pod, rt, input);
      return;
    }
    var checked := Cri.QueryImage(rt, input.image);
    match checked.res
    case Err(e) =>
      r := Cri.Reply(checked.rt, Err(e));
    case Ok(cached) =>
      if cached.Some? {
        r := Cri.Reply(checked.rt, Ok(cached.value));
      } else {
        r := PullWithSandbox(pod, checked.rt, input);
      }
  }

  /** The pull half of `PullImage`. */
  function PullWithSandbox(pod: Pod, rt: Cri.Runtime, input: PullImageInput): (r: Cri.Reply<string>)
    ensures pod.source.criConfig.None? ==> r == Cri.Reply(rt, Err(InvalidFormat))
    ensures pod.source.criConfig.Some? ==>
              r.rt.trace == rt.trace + [Cri.PullImage(Cri.ImageSpec(input.image, map[]), AuthFor(input.auth), pod.source.criConfig)]
    ensures r.res.Ok? ==> input.image in r.rt.images && r.res.value == r.rt.images[input.image]
  {
    match pod.source.criConfig
    case None => Cri.Reply(rt, Err(InvalidFormat))
    case Some(config) => Cri.Pull(rt, Cri.ImageSpec(input.image, map[]), AuthFor(input.auth), Some(config))
  }

  // ---------------------------------------------------------------------
  // Clean-up

  /** `cleanVolumes`: the paths of the disks whose loop devices are to be
      detached, one per disk volume, in volume order. The index is used
      unchecked in the source, so it must be in range. */
  function CleanVolumes(volumes: seq<PodVolume>, diskPaths: seq<string>): (r: seq<string>)
    requires forall i :: 0 <= i < |volumes| && volumes[i].disk.Some? ==> 0 <= volumes[i].disk.value.diskIndex < |diskPaths|
    ensures |r| <= |volumes|
    ensures forall p :: p in r ==> p in diskPaths
    ensures forall i :: 0 <= i < |volumes| && volumes[i].disk.Some? ==> diskPaths[volumes[i].disk.value.diskIndex] in r
    ensures (forall i :: 0 <= i < |volumes| ==> volumes[i].disk.None?) ==> r == []
  {
    if |volumes| == 0 then []
    else
      var rest := CleanVolumes(volumes[1..], diskPaths);
      match volumes[0].disk
      case None => rest
      case Some(d) => [diskPaths[d.diskIndex]] + rest
  }

  /** One volume leaves its disk's path to clean, or nothing when it has no
      disk. */
  lemma CleanOneVolume(v: PodVolume, diskPaths: seq<string>)
    requires v.disk.Some? ==> 0 <= v.disk.value.diskIndex < |diskPaths|
    ensures CleanVolumes([v], diskPaths) == (if v.disk.Some? then [diskPaths[v.disk.value.diskIndex]] else [])
  {
    assert [v][1..] == [];
  }

  /** The paths of a list of volumes are those of its two halves, in
      order. */
  lemma {:induction false} CleanVolumesAppend(a: seq<PodVolume>, b: seq<PodVolume>, diskPaths: seq<string>)
    requires forall i :: 0 <= i < |a| && a[i].disk.Some? ==> 0 <= a[i].disk.value.diskIndex < |diskPaths|
    requires forall i :: 0 <= i < |b| && b[i].disk.Some? ==> 0 <= b[i].disk.value.diskIndex < |diskPaths|
    ensures CleanVolumes(a + b, diskPaths) == CleanVolumes(a, diskPaths) + CleanVolumes(b, diskPaths)
  {
    if |a| == 0 {
      assert a + b == b;
    } else {
      assert (a + b)[0] == a[0];
      assert (a + b)[1..] == a[1..] + b;
      CleanVolumesAppend(a[1..], b, diskPaths);
    }
  }

  /** Disk indexes of the pod's volumes are in range. */
  predicate VolumesInRange(pod: Pod)
  {
    pod.createParams.Some? ==>
      forall i :: 0 <= i < |pod.createParams.value.volumes| && pod.createParams.value.volumes[i].disk.Some? ==>
        0 <= pod.createParams.value.volumes[i].disk.value.diskIndex < |pod.diskPaths|
  }

  /** `CleanGuest`: removes the sandbox recorded in the source descriptor,
      then works out the volume disks to clean, then deletes the home
      directory (`homeDeleted` is `DeleteHomeDir`'s verdict, whose error is
      the result). A failed removal cleans nothing and deletes nothing. */
  function CleanGuest(pod: Pod, rt: Cri.Runtime, homeDeleted: bool): (r: Out<seq<string>>)
    requires VolumesInRange(pod)
    ensures r.pod == pod
    ensures r.rt.trace == rt.trace + [Cri.RemovePodSandbox(pod.source.criId)]
    ensures Cri.RemovePodSandbox(pod.source.criId) in rt.rejects ==> r.res.Err?
    ensures r.res.Ok? ==> pod.source.criId !in r.rt.sandboxes && pod.createParams.Some? && homeDeleted &&
                          r.res.value == CleanVolumes(pod.createParams.value.volumes, pod.diskPaths)
    ensures Cri.RemovePodSandbox(pod.source.criId) !in rt.rejects && pod.source.criId in rt.sandboxes &&
            pod.createParams.Some? ==>
              (r.res.Ok? <==> homeDeleted) && (!homeDeleted ==> r.res == Err(Rejected))
  {
    var removed := Cri.RemovePod(rt, pod.source.criId);
    if removed.res.Err? then Out(pod, removed.rt, Err(removed.res.error))
    else match pod.createParams
      case None => Out(pod, removed.rt, Err(InvalidFormat))
      case Some(input) =>
        var paths := CleanVolumes(input.volumes, pod.diskPaths);
        if !homeDeleted then Out(pod, removed.rt, Err(Rejected))
        else Out(pod, removed.rt, Ok(paths))
  }
}
