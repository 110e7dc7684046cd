/** The control-plane tasks that create a pod and its containers
    (pkg/compute/tasks/pod_create_task.go, container_create_task.go).

    A task is reduced to its current stage name, its phase, and the child
    tasks it has scheduled. The database and the task manager are
    parameters: each call into them enters as the result it returns. */
module Tasks {
  import opened Wrappers
  import Apis

  /** Why a task failed, or why a container status was set. */
  datatype Cause =
    | NoCause                  // a status set with an empty reason
    | NewTaskFailed            // the child task could not be created
    | Because(error: Error)    // an error returned by a call
    | Reported(data: string)   // the data a failure callback received

  /** `SetStageComplete` and `SetStageFailed` end a task; until then it is
      running. */
  datatype Phase = Running | Complete | Failed(cause: Cause)

  datatype Task = Task(stage: string, phase: Phase, scheduled: seq<string>)

  /** The parts of a container record the tasks read or write. */
  datatype Container = Container(id: string, status: Apis.ContainerStatus, reason: Cause)

  const GUEST_CREATE_TASK: string := "GuestCreateTask"
  const STAGE_ON_POD_CREATED: string := "OnPodCreated"
  const STAGE_ON_CONTAINER_CREATED: string := "OnContainerCreated"
  const STAGE_ON_STARTED: string := "OnStarted"

  function SetStageFailed(t: Task, cause: Cause): Task
  {
    t.(phase := Failed(cause))
  }

  // ---------------------------------------------------------------------
  // PodCreateTask

  /** `OnInit` followed by `OnWaitPodCreated`: the task waits in stage
      "OnPodCreated" for a guest create task it makes and schedules; a
      failure to make it or to schedule it fails the task. */
  function PodOnInit(t: Task, newTask: bool, schedule: Result<()>): (r: Task)
    ensures r.stage == STAGE_ON_POD_CREATED
    ensures r.phase == (if !newTask then Failed(NewTaskFailed)
                        else if schedule.Err? then Failed(Because(schedule.error))
                        else t.phase)
    ensures r.scheduled == t.scheduled + (if newTask && schedule.Ok? then [GUEST_CREATE_TASK] else [])
  {
    var waiting := t.(stage := STAGE_ON_POD_CREATED);
    if !newTask then SetStageFailed(waiting, NewTaskFailed)
    else if schedule.Err? then SetStageFailed(waiting, Because(schedule.error))
    else waiting.(scheduled := waiting.scheduled + [GUEST_CREATE_TASK])
  }

  /** What `OnPodCreated` leaves behind: the task, the container records
      it created, and the containers whose create tasks it started. */
  datatype PodCreated = PodCreated(task: Task, created: seq<string>, started: seq<string>)

  /** The first `n` containers were created in order, each with the id the
      database returned for it. */
  predicate CreatedInOrder(created: seq<string>, names: seq<string>, createOnPod: (nat, string) -> Result<string>)
  {
    |created| <= |names| &&
    forall k :: 0 <= k < |created| ==> createOnPod(k, names[k]) == Ok(created[k])
  }

  /** The create loop of `OnPodCreated`: containers are created in order;
      the first failure stops the loop and is returned with the records
      created before it. */
  method CreateAll(names: seq<string>, createOnPod: (nat, string) -> Result<string>)
    returns (created: seq<string>, failure: Option<Error>)
    ensures CreatedInOrder(created, names, createOnPod)
    ensures failure.None? <==> |created| == |names|
    ensures failure.Some? ==> createOnPod(|created|, names[|created|]) == Err(failure.value)
  {
    created := [];
    var i := 0;
    while i < |names|
      invariant i == |created| <= |names|
      invariant CreatedInOrder(created, names, createOnPod)
    {
      var res := createOnPod(i, names[i]);
      if res.Err? {
        return created, Some(res.error);
      }
      created := created + [res.value];
      i := i + 1;
    }
    return created, None;
  }

  /** The start loop of `OnPodCreated`: each created container's create
      task is started in order; the first failure stops the loop. */
  method StartAll(created: seq<string>, startTask: (nat, string) -> Result<()>)
    returns (started: seq<string>, failure: Option<Error>)
    ensures started <= created
    ensures forall k :: 0 <= k < |started| ==> startTask(k, created[k]).Ok?
    ensures failure.None? <==> started == created
    ensures failure.Some? ==> startTask(|started|, created[|started|]) == Err(failure.value)
  {
    started := [];
    var i := 0;
    while i < |created|
      invariant i == |started| <= |created|
      invariant started == created[..i]
      invariant forall k :: 0 <= k < i ==> startTask(k, created[k]).Ok?
    {
      var res := startTask(i, created[i]);
      if res.Err? {
        return started, Some(res.error);
      }
      started := started + [created[i]];
      i := i + 1;
    }
    return started, None;
  }

  /** `OnPodCreated`: the task moves to stage "OnContainerCreated"; the
      create parameters are read (`params`), a record is created for every
      container, in order, and only when all exist is a create task
      started for each, in order. The first failure fails the task and
      stops: no create task is started once a creation has failed, and the
      records and tasks made before the failure remain. */
  method PodOnPodCreated(t: Task, params: Result<seq<string>>,
                         createOnPod: (nat, string) -> Result<string>,
                         startTask: (nat, string) -> Result<()>)
    returns (r: PodCreated)
    ensures r.task.stage == STAGE_ON_CONTAINER_CREATED && r.task.scheduled == t.scheduled
    ensures params.Err? ==> r.created == [] && r.started == [] && r.task.phase == Failed(Because(params.error))
    ensures params.Ok? ==> CreatedInOrder(r.created, params.value, createOnPod)
    ensures r.started <= r.created
    ensures forall k :: 0 <= k < |r.started| ==> startTask(k, r.created[k]).Ok?
    ensures params.Ok? && |r.created| < |params.value| ==>
              r.started == [] && createOnPod(|r.created|, params.value[|r.created|]).Err? &&
              r.task.phase == Failed(Because(createOnPod(|r.created|, params.value[|r.created|]).error))
    ensures params.Ok? && |r.created| == |params.value| && r.started != r.created ==>
              startTask(|r.started|, r.created[|r.started|]).Err? &&
              r.task.phase == Failed(Because(startTask(|r.started|, r.created[|r.started|]).error))
    ensures params.Ok? && |r.created| == |params.value| && r.started == r.created ==> r.task.phase == t.phase
  {
    var staged := t.(stage := STAGE_ON_CONTAINER_CREATED);
    if params.Err? {
      return PodCreated(SetStageFailed(staged, Because(params.error)), [], []);
    }
    var created, createFailure := CreateAll(params.value, createOnPod);
    if createFailure.Some? {
      return PodCreated(SetStageFailed(staged, Because(createFailure.value)), created, []);
    }
    var started, startFailure := StartAll(created, startTask);
    if startFailure.Some? {
      return PodCreated(SetStageFailed(staged, Because(startFailure.value)), created, started);
    }
    return PodCreated(staged, created, started);
  }

  /** `OnContainerCreated`: the pod's containers are fetched; the task
      completes when every one of them is running, fails when the fetch
      fails, and otherwise keeps waiting. */
  method PodOnContainerCreated(t: Task, containers: Result<seq<Container>>) returns (r: Task)
    ensures r.stage == t.stage && r.scheduled == t.scheduled
    ensures containers.Err? ==> r.phase == Failed(Because(containers.error))
    ensures containers.Ok? ==>
              if forall k :: 0 <= k < |containers.value| ==> containers.value[k].status == Apis.Running
              then r.phase == Complete else r == t
  {
    if containers.Err? {
      return SetStageFailed(t, Because(containers.error));
    }
    var ctrs := containers.value;
    var allRunning := true;
    var i := 0;
    while i < |ctrs|
      invariant 0 <= i <= |ctrs|
      invariant allRunning <==> forall k :: 0 <= k < i ==> ctrs[k].status == Apis.Running
    {
      if ctrs[i].status != Apis.Running {
        allRunning := false;
      }
      i := i + 1;
    }
    if allRunning {
      return t.(phase := Complete);
    }
    return t;
  }

  /** `OnPodCreatedFailed` and `OnContainerCreatedFailed`: the task fails
      with the data the failed stage reported. */
  function PodOnStageFailed(t: Task, data: string): (r: Task)
    ensures r.phase == Failed(Reported(data)) && r.stage == t.stage && r.scheduled == t.scheduled
  {
    SetStageFailed(t, Reported(data))
  }

  // ---------------------------------------------------------------------
  // ContainerCreateTask

  datatype ContainerTask = ContainerTask(task: Task, container: Container)

  /** `OnStartedFailed`: the container is marked as failed to start with
      the reason, and the task fails with the same reason. */
  function ContainerOnStartedFailed(s: ContainerTask, reason: Cause): (r: ContainerTask)
    ensures r.container == s.container.(status := Apis.VmStartFailed, reason := reason)
    ensures r.task == s.task.(phase := Failed(reason))
  {
    ContainerTask(SetStageFailed(s.task, reason), s.container.(status := Apis.VmStartFailed, reason := reason))
  }

  /** `OnInit`, that is `requestStart`: the task moves to stage "OnStarted",
      the container to "starting" with no reason, and the pod driver is
      asked to start it (`request`); a refused request goes through
      `OnStartedFailed`. */
  function ContainerOnInit(s: ContainerTask, request: Result<()>): (r: ContainerTask)
    ensures r.task.stage == STAGE_ON_STARTED && r.task.scheduled == s.task.scheduled
    ensures r.container.id == s.container.id
    ensures request.Ok? ==> r.task.phase == s.task.phase && r.container.status == Apis.VmStarting &&
                            r.container.reason == NoCause
    ensures request.Err? ==> r.task.phase == Failed(Because(request.error)) &&
                             r.container.status == Apis.VmStartFailed &&
                             r.container.reason == Because(request.error)
  {
    var staged := ContainerTask(s.task.(stage := STAGE_ON_STARTED),
                                s.container.(status := Apis.VmStarting, reason := NoCause));
    if request.Err? then ContainerOnStartedFailed(staged, Because(request.error)) else staged
  }

  /** `OnStarted`: the task completes; the container status is left to the
      host's report. */
  function ContainerOnStarted(s: ContainerTask): (r: ContainerTask)
    ensures r.task.phase == Complete && r.task.stage == s.task.stage && r.container == s.container
  {
    ContainerTask(s.task.(phase := Complete), s.container)
  }

  /** After the create task has run its callbacks, the task and the
      container agree: a failed task has a container marked as failed to
      start for the same reason, and a completed one a container still
      marked as starting. One `Cause` stands for the failure on both
      sides: the source gives the container the error's text and the task
      its JSON form, so the agreement is about the same failure, not about
      equal strings. */
  lemma ContainerTaskOutcomeAgrees(s: ContainerTask, request: Result<()>)
    requires s.task.phase == Running
    ensures var afterInit := ContainerOnInit(s, request);
            (afterInit.task.phase.Failed? ==>
               afterInit.container.status == Apis.VmStartFailed &&
               afterInit.container.reason == afterInit.task.phase.cause) &&
            (afterInit.task.phase == Running ==>
               ContainerOnStarted(afterInit).container.status == Apis.VmStarting &&
               ContainerOnStarted(afterInit).task.phase == Complete)
  {
  }
}
