/** The container runtime on the far side of the Container Runtime
    Interface (CRI), as abstract state.

    The host agent only ever talks to the runtime through remote calls; the
    model replaces the gRPC channel with a value `Runtime` holding the
    sandboxes, containers and cached images the runtime knows, a counter
    from which it mints identifiers, the set of calls it will answer with an
    error (`rejects`, standing for every runtime-side failure), and the
    trace of every call issued to it, in order. A call is appended to the
    trace whether or not the runtime rejects it, so "no call was issued" is
    the statement that the trace did not grow. */
module Cri {
  import opened Wrappers
  import Strings

  /** `runtimeapi.ContainerState`. */
  datatype ContainerState = StateCreated | StateRunning | StateExited | StateUnknown

  /** `runtimeapi.Protocol`. */
  datatype Protocol = TCP | UDP | SCTP

  datatype PortMapping = PortMapping(protocol: Protocol, containerPort: int, hostPort: int, hostIp: string)

  /** The parts of `runtimeapi.PodSandboxConfig` the agent fills in. */
  datatype SandboxConfig = SandboxConfig(
    name: string,
    uid: string,
    namespace: string,
    attempt: int,
    hostname: string,
    logDirectory: string,
    portMappings: seq<PortMapping>)

  datatype ImageSpec = ImageSpec(image: string, annotations: map<string, string>)

  datatype KeyValue = KeyValue(key: string, value: string)

  /** `runtimeapi.Device`: a host device node exposed inside a container. */
  datatype Device = Device(containerPath: string, hostPath: string, permissions: string)

  /** The parts of `runtimeapi.ContainerConfig` the agent fills in. An absent
      command or argument list is `None`. */
  datatype ContainerConfig = ContainerConfig(
    name: string,
    image: ImageSpec,
    command: Option<seq<string>>,
    args: Option<seq<string>>,
    logPath: string,
    envs: seq<KeyValue>,
    devices: seq<Device>,
    addCapabilities: seq<string>)

  /** `runtimeapi.AuthConfig`. */
  datatype AuthConfig = AuthConfig(
    username: string,
    password: string,
    auth: string,
    serverAddress: string,
    identityToken: string,
    registryToken: string)

  /** One remote call, with the arguments that reach the runtime. */
  datatype Call =
    | RunPodSandbox(podConfig: SandboxConfig, runtimeHandler: string)
    | RemovePodSandbox(podId: string)
    | CreateContainer(podId: string, sandboxConfig: SandboxConfig, config: ContainerConfig)
    | StartContainer(containerId: string)
    | StopContainer(containerId: string, timeout: int)
    | RemoveContainer(containerId: string)
    | ContainerStatus(containerId: string)
    | ImageStatus(imageRef: string)
    | PullImage(image: ImageSpec, auth: Option<AuthConfig>, pullSandbox: Option<SandboxConfig>)

  datatype Runtime = Runtime(
    sandboxes: set<string>,
    containers: map<string, ContainerState>,
    images: map<string, string>,   // image reference -> image id
    minted: nat,
    rejects: set<Call>,
    trace: seq<Call>)

  /** The runtime's answer to one call: its next state and the result. */
  datatype Reply<+T> = Reply(rt: Runtime, res: Result<T>)

  /** The identifier the runtime hands out for its `n`-th new object. */
  function MintId(n: nat): string
  {
    "cri-" + Strings.Decimal(n)
  }

  function Issue(rt: Runtime, c: Call): Runtime
  {
    rt.(trace := rt.trace + [c])
  }

  function RunPod(rt: Runtime, config: SandboxConfig, handler: string): Reply<string>
  {
    var c := RunPodSandbox(config, handler);
    var rt1 := Issue(rt, c);
    if c in rt.rejects then Reply(rt1, Err(Rejected))
    else
      var id := MintId(rt.minted);
      Reply(rt1.(sandboxes := rt.sandboxes + {id}, minted := rt.minted + 1), Ok(id))
  }

  function RemovePod(rt: Runtime, podId: string): Reply<()>
  {
    var c := RemovePodSandbox(podId);
    var rt1 := Issue(rt, c);
    if c in rt.rejects then Reply(rt1, Err(Rejected))
    else if podId !in rt.sandboxes then Reply(rt1, Err(NotFound))
    else Reply(rt1.(sandboxes := rt.sandboxes - {podId}), Ok(()))
  }

  function Create(rt: Runtime, podId: string, sandbox: SandboxConfig, config: ContainerConfig): Reply<string>
  {
    var c := CreateContainer(podId, sandbox, config);
    var rt1 := Issue(rt, c);
    if c in rt.rejects then Reply(rt1, Err(Rejected))
    else if podId !in rt.sandboxes then Reply(rt1, Err(NotFound))
    else
      var id := MintId(rt.minted);
      Reply(rt1.(containers := rt.containers[id := StateCreated], minted := rt.minted + 1), Ok(id))
  }

  function Start(rt: Runtime, id: string): Reply<()>
  {
    var c := StartContainer(id);
    var rt1 := Issue(rt, c);
    if c in rt.rejects then Reply(rt1, Err(Rejected))
    else if id !in rt.containers then Reply(rt1, Err(NotFound))
    else Reply(rt1.(containers := rt.containers[id := StateRunning]), Ok(()))
  }

  function Stop(rt: Runtime, id: string, timeout: int): Reply<()>
  {
    var c := StopContainer(id, timeout);
    var rt1 := Issue(rt, c);
    if c in rt.rejects then Reply(rt1, Err(Rejected))
    else if id !in rt.containers then Reply(rt1, Err(NotFound))
    else Reply(rt1.(containers := rt.containers[id := StateExited]), Ok(()))
  }

  function Remove(rt: Runtime, id: string): Reply<()>
  {
    var c := RemoveContainer(id);
    var rt1 := Issue(rt, c);
    if c in rt.rejects then Reply(rt1, Err(Rejected))
    else if id !in rt.containers then Reply(rt1, Err(NotFound))
    else Reply(rt1.(containers := rt.containers - {id}), Ok(()))
  }

  function Status(rt: Runtime, id: string): Reply<ContainerState>
  {
    var c := ContainerStatus(id);
    var rt1 := Issue(rt, c);
    if c in rt.rejects then Reply(rt1, Err(Rejected))
    else if id !in rt.containers then Reply(rt1, Err(NotFound))
    else Reply(rt1, Ok(rt.containers[id]))
  }

  /** The cached image id of `image`, or `None` when it is not cached. */
  function QueryImage(rt: Runtime, image: string): Reply<Option<string>>
  {
    var c := ImageStatus(image);
    var rt1 := Issue(rt, c);
    if c in rt.rejects then Reply(rt1, Err(Rejected))
    else if image in rt.images then Reply(rt1, Ok(Some(rt.images[image])))
    else Reply(rt1, Ok(None))
  }

  function Pull(rt: Runtime, image: ImageSpec, auth: Option<AuthConfig>, sandbox: Option<SandboxConfig>): Reply<string>
  {
    var c := PullImage(image, auth, sandbox);
    var rt1 := Issue(rt, c);
    if c in rt.rejects then Reply(rt1, Err(Rejected))
    else
      var ref := MintId(rt.minted);
      Reply(rt1.(images := rt.images[image.image := ref], minted := rt.minted + 1), Ok(ref))
  }

  /** The kind of a call, forgetting its arguments. */
  datatype CallKind = KRunPod | KRemovePod | KCreate | KStart | KStop | KRemove | KStatus | KImageStatus | KPull

  function KindOf(c: Call): CallKind
  {
    match c
    case RunPodSandbox(_, _) => KRunPod
    case RemovePodSandbox(_) => KRemovePod
    case CreateContainer(_, _, _) => KCreate
    case StartContainer(_) => KStart
    case StopContainer(_, _) => KStop
    case RemoveContainer(_) => KRemove
    case ContainerStatus(_) => KStatus
    case ImageStatus(_) => KImageStatus
    case PullImage(_, _, _) => KPull
  }

  /** The kinds of a sequence of calls, in order. */
  function Kinds(cs: seq<Call>): (ks: seq<CallKind>)
    ensures |ks| == |cs|
    ensures forall i :: 0 <= i < |cs| ==> ks[i] == KindOf(cs[i])
  {
    if |cs| == 0 then [] else [KindOf(cs[0])] + Kinds(cs[1..])
  }

  /** The calls issued between two runtime states, when `after` extends
      `before`. */
  function Issued(before: Runtime, after: Runtime): seq<Call>
    requires before.trace <= after.trace
  {
    after.trace[|before.trace|..]
  }

  /** Calls issued over two consecutive stretches are those of the first
      followed by those of the second. */
  lemma IssuedAppend(r0: Runtime, r1: Runtime, r2: Runtime)
    requires r0.trace <= r1.trace && r1.trace <= r2.trace
    ensures r0.trace <= r2.trace
    ensures Issued(r0, r2) == Issued(r0, r1) + Issued(r1, r2)
  {
    assert r2.trace[..|r1.trace|] == r1.trace;
  }

  /** One call followed by a stretch: the kinds issued are that call's kind
      followed by the stretch's. */
  lemma KindsAfterOne(r0: Runtime, r1: Runtime, r2: Runtime, c: Call)
    requires r1.trace == r0.trace + [c] && r1.trace <= r2.trace
    ensures r0.trace <= r2.trace
    ensures Kinds(Issued(r0, r2)) == [KindOf(c)] + Kinds(Issued(r1, r2))
  {
    IssuedAppend(r0, r1, r2);
    assert Issued(r0, r1) == [c];
    KindsAppend(Issued(r0, r1), Issued(r1, r2));
  }

  /** Kinds distribute over concatenation. */
  lemma KindsAppend(a: seq<Call>, b: seq<Call>)
    ensures Kinds(a + b) == Kinds(a) + Kinds(b)
  {
  }

  /** A prefix of kinds stays a prefix when both sides grow at the front. */
  lemma KindsPrefixCons(front: seq<CallKind>, ks: seq<CallKind>, bound: seq<CallKind>)
    requires ks <= bound
    ensures front + ks <= front + bound
  {
  }
}
