/** The CRI client's composite operations (pkg/util/pod/pod.go): the
    empty-id guard of `StartContainer`, pull-before-create in
    `CreateContainer`, and the sandbox-then-containers sequence of
    `RunContainers`, which stops at the first failure without undoing
    anything. */
module CriClient {
  import opened Wrappers
  import Cri

  /** `crictl.StartContainer`: an empty id is refused before any remote call. */
  function StartContainer(rt: Cri.Runtime, id: string): (r: Cri.Reply<()>)
    ensures id == "" ==> r.res == Err(EmptyId) && r.rt == rt
    ensures id != "" ==> r.rt.trace == rt.trace + [Cri.StartContainer(id)]
    ensures r.res.Ok? ==> id in r.rt.containers && r.rt.containers[id] == Cri.StateRunning
  {
    if id == "" then Cri.Reply(rt, Err(EmptyId)) else Cri.Start(rt, id)
  }

  /** The pull request `CreateContainer` issues when asked to pull first:
      the container's image spec, no credentials, no sandbox config. */
  function PullFor(config: Cri.ContainerConfig): Cri.Call
  {
    Cri.PullImage(config.image, None, None)
  }

  /** `crictl.CreateContainer`: pulls the image first exactly when
      `withPull` is set; a failed pull means no create call. */
  function CreateContainer(rt: Cri.Runtime, podId: string, podConfig: Cri.SandboxConfig,
                           config: Cri.ContainerConfig, withPull: bool): (r: Cri.Reply<string>)
    ensures !withPull ==> r.rt.trace == rt.trace + [Cri.CreateContainer(podId, podConfig, config)]
    ensures withPull && PullFor(config) in rt.rejects ==>
              r.rt.trace == rt.trace + [PullFor(config)] && r.res.Err?
    ensures withPull && PullFor(config) !in rt.rejects ==>
              r.rt.trace == rt.trace + [PullFor(config), Cri.CreateContainer(podId, podConfig, config)]
    ensures r.res.Ok? ==> r.res.value in r.rt.containers && r.rt.containers[r.res.value] == Cri.StateCreated
  {
    if withPull then
      var p := Cri.Pull(rt, config.image, None, None);
      if p.res.Err? then Cri.Reply(p.rt, Err(p.res.error))
      else Cri.Create(p.rt, podId, podConfig, config)
    else Cri.Create(rt, podId, podConfig, config)
  }

  /** `RunContainersResponse`. */
  datatype RunContainersResponse = RunContainersResponse(podId: string, containerIds: seq<string>)

  /** How far the per-container loop got. The Go function returns a nil
      response on failure; `started` names the containers that were already
      created and started and are left in place, and `pending` the container
      that was created but whose start failed. */
  datatype Progress =
    | AllStarted(ids: seq<string>)
    | CreateFailedAt(index: nat, started: seq<string>, cause: Error)
    | StartFailedAt(index: nat, started: seq<string>, pending: string, cause: Error)

  /** The outcome of `RunContainers`. */
  datatype RunOutcome =
    | Ran(resp: RunContainersResponse)
    | SandboxFailed(cause: Error)
    | ContainerFailed(progress: Progress)

  /** The calls issued for one container config that is created (with pull)
      and started under the id `id`. */
  function StepCalls(podId: string, podConfig: Cri.SandboxConfig, config: Cri.ContainerConfig, id: string): seq<Cri.Call>
  {
    [PullFor(config), Cri.CreateContainer(podId, podConfig, config), Cri.StartContainer(id)]
  }

  /** The calls issued for a run of configs that all succeed, in order. */
  function Steps(podId: string, podConfig: Cri.SandboxConfig, configs: seq<Cri.ContainerConfig>, ids: seq<string>): seq<Cri.Call>
    requires |configs| == |ids|
  {
    if |configs| == 0 then []
    else StepCalls(podId, podConfig, configs[0], ids[0]) + Steps(podId, podConfig, configs[1..], ids[1..])
  }

  /** Steps of a list whose first container got the id `id`. */
  lemma StepsCons(podId: string, podConfig: Cri.SandboxConfig, configs: seq<Cri.ContainerConfig>,
                  id: string, ids: seq<string>)
    requires |configs| == |ids| + 1
    ensures Steps(podId, podConfig, configs, [id] + ids)
            == StepCalls(podId, podConfig, configs[0], id) + Steps(podId, podConfig, configs[1..], ids)
  {
    assert ([id] + ids)[1..] == ids;
  }

  /** The loop of `RunContainers` over the configs: create with pull, then
      start, then move on; the first failure ends the loop. The calls it
      issues in each outcome are stated by `AllStartedTrace`,
      `CreateFailedTrace` and `StartFailedTrace`. */
  function CreateAndStartAll(rt: Cri.Runtime, podId: string, podConfig: Cri.SandboxConfig,
                             configs: seq<Cri.ContainerConfig>): (r: (Cri.Runtime, Progress))
    decreases |configs|
    ensures r.1.AllStarted? ==> |r.1.ids| == |configs|
    ensures !r.1.AllStarted? ==> r.1.index < |configs| && |r.1.started| == r.1.index
  {
    if |configs| == 0 then (rt, AllStarted([]))
    else
      var c := CreateContainer(rt, podId, podConfig, configs[0], true);
      if c.res.Err? then (c.rt, CreateFailedAt(0, [], c.res.error))
      else
        var s := StartContainer(c.rt, c.res.value);
        if s.res.Err? then (s.rt, StartFailedAt(0, [], c.res.value, s.res.error))
        else
          var rest := CreateAndStartAll(s.rt, podId, podConfig, configs[1..]);
          match rest.1
          case AllStarted(ids) => (rest.0, AllStarted([c.res.value] + ids))
          case CreateFailedAt(k, started, e) => (rest.0, CreateFailedAt(k + 1, [c.res.value] + started, e))
          case StartFailedAt(k, started, pending, e) =>
            (rest.0, StartFailedAt(k + 1, [c.res.value] + started, pending, e))
  }

  /** When every container starts, the loop issues exactly the steps of the
      configs, in order, each start naming the id its create returned. */
  lemma {:induction false} AllStartedTrace(rt: Cri.Runtime, podId: string, podConfig: Cri.SandboxConfig,
                                           configs: seq<Cri.ContainerConfig>)
    requires CreateAndStartAll(rt, podId, podConfig, configs).1.AllStarted?
    ensures var r := CreateAndStartAll(rt, podId, podConfig, configs);
            r.0.trace == rt.trace + Steps(podId, podConfig, configs, r.1.ids)
    decreases |configs|
  {
    if |configs| > 0 {
      var c := CreateContainer(rt, podId, podConfig, configs[0], true);
      var s := StartContainer(c.rt, c.res.value);
      AllStartedTrace(s.rt, podId, podConfig, configs[1..]);
      var ids := CreateAndStartAll(s.rt, podId, podConfig, configs[1..]).1.ids;
      StepsCons(podId, podConfig, configs, c.res.value, ids);
    }
  }

  /** The completed steps seen from before the first container equal the
      first container's steps followed by the completed steps seen from
      after it. */
  lemma ShiftedDone(rt: Cri.Runtime, next: Cri.Runtime, podId: string, podConfig: Cri.SandboxConfig,
                    configs: seq<Cri.ContainerConfig>, id: string, k: nat, started: seq<string>)
    requires k + 1 < |configs| && |started| == k
    requires next.trace == rt.trace + StepCalls(podId, podConfig, configs[0], id)
    ensures rt.trace + Steps(podId, podConfig, configs[..k + 1], [id] + started)
            == next.trace + Steps(podId, podConfig, configs[1..][..k], started)
    ensures configs[1..][k] == configs[k + 1]
  {
    StepsCons(podId, podConfig, configs[..k + 1], id, started);
    assert configs[..k + 1][1..] == configs[1..][..k];
  }

  /** When the create of container `k` fails, the first `k` containers went
      through all their steps and container `k` got its pull (and maybe its
      create) and nothing more. */
  lemma {:induction false} CreateFailedTrace(rt: Cri.Runtime, podId: string, podConfig: Cri.SandboxConfig,
                                             configs: seq<Cri.ContainerConfig>)
    requires CreateAndStartAll(rt, podId, podConfig, configs).1.CreateFailedAt?
    ensures var r := CreateAndStartAll(rt, podId, podConfig, configs);
            var k := r.1.index;
            var done := rt.trace + Steps(podId, podConfig, configs[..k], r.1.started);
            r.0.trace == done + [PullFor(configs[k])] ||
            r.0.trace == done + [PullFor(configs[k]), Cri.CreateContainer(podId, podConfig, configs[k])]
    decreases |configs|
  {
    var c := CreateContainer(rt, podId, podConfig, configs[0], true);
    if c.res.Err? {
      assert configs[..0] == [];
    } else {
      var s := StartContainer(c.rt, c.res.value);
      var id := c.res.value;
      CreateFailedTrace(s.rt, podId, podConfig, configs[1..]);
      var rest := CreateAndStartAll(s.rt, podId, podConfig, configs[1..]);
      var k := rest.1.index;
      assert CreateAndStartAll(rt, podId, podConfig, configs)
             == (rest.0, CreateFailedAt(k + 1, [id] + rest.1.started, rest.1.cause));
      ShiftedDone(rt, s.rt, podId, podConfig, configs, id, k, rest.1.started);
    }
  }

  /** When the start of container `k` fails, the first `k` containers went
      through all their steps and container `k` was pulled, created and
      had its start attempted; it is left in place. */
  lemma {:induction false} StartFailedTrace(rt: Cri.Runtime, podId: string, podConfig: Cri.SandboxConfig,
                                            configs: seq<Cri.ContainerConfig>)
    requires CreateAndStartAll(rt, podId, podConfig, configs).1.StartFailedAt?
    ensures var r := CreateAndStartAll(rt, podId, podConfig, configs);
            var k := r.1.index;
            r.0.trace == rt.trace + Steps(podId, podConfig, configs[..k], r.1.started)
                         + StepCalls(podId, podConfig, configs[k], r.1.pending)
    decreases |configs|
  {
    var c := CreateContainer(rt, podId, podConfig, configs[0], true);
    var s := StartContainer(c.rt, c.res.value);
    if s.res.Err? {
      assert configs[..0] == [];
    } else {
      var id := c.res.value;
      StartFailedTrace(s.rt, podId, podConfig, configs[1..]);
      var rest := CreateAndStartAll(s.rt, podId, podConfig, configs[1..]);
      var k := rest.1.index;
      assert CreateAndStartAll(rt, podId, podConfig, configs)
             == (rest.0, StartFailedAt(k + 1, [id] + rest.1.started, rest.1.pending, rest.1.cause));
      ShiftedDone(rt, s.rt, podId, podConfig, configs, id, k, rest.1.started);
    }
  }

  /** `crictl.RunContainers`: runs the sandbox, then creates (with pull) and
      starts each container in order against the new sandbox id. */
  function RunContainers(rt: Cri.Runtime, podConfig: Cri.SandboxConfig,
                         configs: seq<Cri.ContainerConfig>, handler: string): (r: (Cri.Runtime, RunOutcome))
    ensures Cri.RunPodSandbox(podConfig, handler) in rt.rejects ==>
              r.1.SandboxFailed? && r.0.trace == rt.trace + [Cri.RunPodSandbox(podConfig, handler)]
    ensures r.1.Ran? ==>
              r.1.resp.podId == Cri.MintId(rt.minted) &&
              |r.1.resp.containerIds| == |configs| &&
              r.0.trace == rt.trace + [Cri.RunPodSandbox(podConfig, handler)]
                           + Steps(r.1.resp.podId, podConfig, configs, r.1.resp.containerIds)
    ensures r.1.ContainerFailed? ==>
              var p := r.1.progress;
              !p.AllStarted? && p.index < |configs| && |p.started| == p.index &&
              var done := rt.trace + [Cri.RunPodSandbox(podConfig, handler)]
                          + Steps(Cri.MintId(rt.minted), podConfig, configs[..p.index], p.started);
              done <= r.0.trace
  {
    var p := Cri.RunPod(rt, podConfig, handler);
    if p.res.Err? then (p.rt, SandboxFailed(p.res.error))
    else
      var loop := CreateAndStartAll(p.rt, p.res.value, podConfig, configs);
      match loop.1
      case AllStarted(ids) =>
        AllStartedTrace(p.rt, p.res.value, podConfig, configs);
        (loop.0, Ran(RunContainersResponse(p.res.value, ids)))
      case CreateFailedAt(_, _, _) =>
        CreateFailedTrace(p.rt, p.res.value, podConfig, configs);
        (loop.0, ContainerFailed(loop.1))
      case StartFailedAt(_, _, _, _) =>
        StartFailedTrace(p.rt, p.res.value, podConfig, configs);
        (loop.0, ContainerFailed(loop.1))
  }

  /** Every call issued by a successful run of steps belongs to one of the
      given configs: configs outside the list are never touched. */
  lemma {:induction false} StepsTouchOnlyTheirConfigs(podId: string, podConfig: Cri.SandboxConfig,
                                                      configs: seq<Cri.ContainerConfig>, ids: seq<string>, i: nat)
    requires |configs| == |ids|
    requires i < |Steps(podId, podConfig, configs, ids)|
    ensures Steps(podId, podConfig, configs, ids)[i].CreateContainer? ==>
              Steps(podId, podConfig, configs, ids)[i].config in configs
    ensures Steps(podId, podConfig, configs, ids)[i].PullImage? ==>
              exists j :: 0 <= j < |configs| && Steps(podId, podConfig, configs, ids)[i].image == configs[j].image
    ensures !Steps(podId, podConfig, configs, ids)[i].RemoveContainer? &&
            !Steps(podId, podConfig, configs, ids)[i].StopContainer?
  {
    var head := StepCalls(podId, podConfig, configs[0], ids[0]);
    var tail := Steps(podId, podConfig, configs[1..], ids[1..]);
    assert Steps(podId, podConfig, configs, ids) == head + tail;
    if i >= 3 {
      StepsTouchOnlyTheirConfigs(podId, podConfig, configs[1..], ids[1..], i - 3);
      assert Steps(podId, podConfig, configs, ids)[i] == tail[i - 3];
      if tail[i - 3].PullImage? {
        var j :| 0 <= j < |configs[1..]| && tail[i - 3].image == configs[1..][j].image;
        assert configs[1..][j] == configs[j + 1];
      }
    } else if i == 0 {
      assert configs[0] == configs[0];
    }
  }

  /** The number of calls a successful run of steps issues. */
  lemma {:induction false} StepsLength(podId: string, podConfig: Cri.SandboxConfig,
                                       configs: seq<Cri.ContainerConfig>, ids: seq<string>)
    requires |configs| == |ids|
    ensures |Steps(podId, podConfig, configs, ids)| == 3 * |configs|
  {
    if |configs| > 0 {
      StepsLength(podId, podConfig, configs[1..], ids[1..]);
    }
  }
}
