/** The process-wide upload registry held by `UploadWorker`'s companion object, and
    the worker operations that change it. Each call is modelled as one atomic step from
    a registry value to the next; the code does not lock `performWork` at all, and locks
    the worker instance, not the companion, in `holdForegroundNotification` and
    `taskCompleted`, so atomicity is an assumption of the model. */
module UploadWorker {

  import opened Wrappers
  import opened Int32
  import opened Data
  import opened ContextExtensions

  /** Notification id of the foreground notification; task ids are offsets from it. */
  const UploadNotificationBaseId: int32 := 1234

  /** The companion state:
      `tasks` — `uploadTasksMap`, upload id to running task;
      `foreground` — `foregroundUploadId`, the task holding the foreground notification;
      `counter` — `notificationIncrementalId`;
      `cancelled` — the registered ids whose task has been sent `cancel()`. The signal
      belongs to the task object, so it leaves the registry with the task. */
  datatype Registry = Registry(
    tasks: map<string, Task>,
    foreground: Option<string>,
    counter: int32,
    cancelled: set<string>)

  /** An operation's new registry and its return value. */
  datatype Step<T> = Step(registry: Registry, value: T)

  /** The registry when the process starts. */
  const Initial: Registry := Registry(map[], None, 0, {})

  /** Every task is registered under its own upload id. */
  ghost predicate KeyedById(r: Registry)
  {
    forall id :: id in r.tasks ==> r.tasks[id].params.id == id
  }

  /** Only registered tasks carry a cancel signal. */
  ghost predicate CancelledRegistered(r: Registry)
  {
    r.cancelled <= r.tasks.Keys
  }

  /** The foreground slot, when held, belongs to a registered task. */
  ghost predicate SlotOwned(r: Registry)
  {
    r.foreground.Some? ==> r.foreground.value in r.tasks
  }

  /** `stopUpload`: signals cancellation to the task registered under `uploadId`, if any. */
  function StopUpload(r: Registry, uploadId: string): (r': Registry)
    ensures r'.tasks == r.tasks && r'.foreground == r.foreground && r'.counter == r.counter
    ensures forall id :: id in r'.cancelled <==> id in r.cancelled || (id == uploadId && uploadId in r.tasks)
  {
    match Get(r.tasks, uploadId)
    case Some(_) => r.(cancelled := r.cancelled + {uploadId})
    case None => r
  }

  /** `uploadTasksMap[id]` */
  function Get(tasks: map<string, Task>, id: string): Option<Task>
  {
    if id in tasks then Some(tasks[id]) else None
  }

  /** `stopAllUploads`: walks the key set and signals cancellation to each task. */
  method StopAllUploads(r: Registry) returns (r': Registry)
    ensures r'.tasks == r.tasks && r'.foreground == r.foreground && r'.counter == r.counter
    ensures forall id :: id in r'.cancelled <==> id in r.cancelled || id in r.tasks
  {
    var pending := r.tasks.Keys;
    r' := r;
    while pending != {}
      invariant pending <= r.tasks.Keys
      invariant r'.tasks == r.tasks && r'.foreground == r.foreground && r'.counter == r.counter
      invariant forall id :: id in r'.cancelled <==> id in r.cancelled || (id in r.tasks && id !in pending)
      decreases pending
    {
      var id :| id in pending;
      r' := StopUpload(r', id);
      pending := pending - {id};
    }
  }

  /** `stop`: the same as `stopAllUploads`, whatever `forceStop` says. */
  method Stop(r: Registry, forceStop: bool) returns (r': Registry)
    ensures r'.tasks == r.tasks && r'.foreground == r.foreground && r'.counter == r.counter
    ensures forall id :: id in r'.cancelled <==> id in r.cancelled || id in r.tasks
  {
    r' := StopAllUploads(r);
  }

  /** `taskList`: the registered upload ids, each once; empty when nothing is registered. */
  method TaskList(r: Registry) returns (ids: seq<string>)
    ensures r.tasks == map[] <==> ids == []
    ensures forall id :: id in ids <==> id in r.tasks
    ensures forall i, j :: 0 <= i < j < |ids| ==> ids[i] != ids[j]
  {
    if r.tasks == map[] {
      return [];
    }
    ids := [];
    var pending := r.tasks.Keys;
    while pending != {}
      invariant pending <= r.tasks.Keys
      invariant forall id :: id in ids <==> id in r.tasks && id !in pending
      invariant forall i, j :: 0 <= i < j < |ids| ==> ids[i] != ids[j]
      decreases pending
    {
      var id :| id in pending;
      ids := ids + [id];
      pending := pending - {id};
    }
    var some :| some in r.tasks;
    assert some in ids;
  }

  /** `holdForegroundNotification`: claims the foreground slot when it is free; reports
      whether the caller now holds it. */
  function HoldForegroundNotification(r: Registry, uploadId: string): (s: Step<bool>)
    ensures s.registry.tasks == r.tasks && s.registry.counter == r.counter && s.registry.cancelled == r.cancelled
    ensures r.foreground.None? ==> s.registry.foreground == Some(uploadId) && s.value
    ensures r.foreground == Some(uploadId) ==> s.registry == r && s.value
    ensures r.foreground.Some? && r.foreground.value != uploadId ==> s.registry == r && !s.value
    ensures s.value <==> s.registry.foreground == Some(uploadId)
  {
    var slot := if r.foreground.None? then Some(uploadId) else r.foreground;
    Step(r.(foreground := slot), slot == Some(uploadId))
  }

  /** `taskCompleted`: unregisters the task; in foreground-service mode, frees the slot
      when the removed task's own id is the one holding it. */
  function TaskCompleted(cfg: ServiceConfig, r: Registry, uploadId: string): (r': Registry)
    ensures uploadId !in r'.tasks
    ensures forall id :: id != uploadId ==> (id in r'.tasks <==> id in r.tasks)
    ensures forall id :: id != uploadId && id in r.tasks ==> r'.tasks[id] == r.tasks[id]
    ensures r'.foreground != r.foreground <==>
      cfg.isForegroundService && uploadId in r.tasks && r.foreground == Some(r.tasks[uploadId].params.id)
    ensures r'.foreground != r.foreground ==> r'.foreground == None
    ensures r'.counter == r.counter
    ensures forall id :: id in r'.cancelled <==> id in r.cancelled && id != uploadId
  {
    var removed := Get(r.tasks, uploadId);
    var tasks := r.tasks - {uploadId};
    var cancelled := r.cancelled - {uploadId};
    if cfg.isForegroundService && removed.Some? && r.foreground == Some(removed.value.params.id) then
      r.(tasks := tasks, foreground := None, cancelled := cancelled)
    else
      r.(tasks := tasks, cancelled := cancelled)
  }

  /** When every task is registered under its own id, completing `uploadId` frees the
      slot exactly when foreground-service mode is on and `uploadId` is registered and holds it. */
  lemma TaskCompletedReleasesOwnSlot(cfg: ServiceConfig, r: Registry, uploadId: string)
    requires KeyedById(r)
    ensures TaskCompleted(cfg, r, uploadId).foreground ==
      if cfg.isForegroundService && uploadId in r.tasks && r.foreground == Some(uploadId) then None
      else r.foreground
  {
  }

  /** The duplicate check of `performWork` passes: nothing is registered under the id. */
  predicate Admissible(r: Registry, creation: CreationParams)
  {
    creation.params.id !in r.tasks
  }

  /** The registry part of `performWork` once the creation parameters are known:
      rejects a duplicate id, steps the counter by two, instantiates the task with
      notification id base + counter and registers it under its own id. */
  function Submit(r: Registry, creation: CreationParams, classes: Classes): (s: Step<bool>)
    ensures !Admissible(r, creation) ==> s == Step(r, false)
    ensures Admissible(r, creation) ==> s.registry.counter == Add(r.counter, 2)
    ensures Admissible(r, creation) && r.counter <= Max - 2 ==> s.registry.counter == r.counter + 2
    ensures s.registry.foreground == r.foreground && s.registry.cancelled == r.cancelled
    ensures !s.value ==> s.registry.tasks == r.tasks
    ensures s.value <==>
      var c := creation.params.taskClass;
      Admissible(r, creation) && classes.resolves(c) && classes.extendsUploadTask(c) && classes.constructible(c)
    ensures s.value ==>
      var id := creation.params.id;
      && s.registry.tasks.Keys == r.tasks.Keys + {id}
      && (forall other :: other in r.tasks ==> s.registry.tasks[other] == r.tasks[other])
      && s.registry.tasks[id].params == creation.params
      && s.registry.tasks[id].notificationConfig == creation.notificationConfig
      && s.registry.tasks[id].notificationId == Add(UploadNotificationBaseId, s.registry.counter)
  {
    if creation.params.id in r.tasks then
      Step(r, false)
    else
      var counter := Add(r.counter, 2);
      var stepped := r.(counter := counter);
      match GetUploadTask(classes, creation, Add(UploadNotificationBaseId, counter))
      case None => Step(stepped, false)
      case Some(task) => Step(stepped.(tasks := r.tasks[task.params.id := task]), true)
  }

  /** The worker's own `getUploadTaskCreationParameters`: the parameters found in the
      input data, with the notification configuration the factory gives for their id. */
  function WorkerCreationParameters(input: WorkData, configFactory: string -> NotificationConfig): (c: Option<CreationParams>)
    ensures c.Some? <==> TaskCreationParamsKey in input
    ensures c.Some? ==>
      c.value.params == input[TaskCreationParamsKey] && c.value.notificationConfig == configFactory(c.value.params.id)
  {
    if TaskCreationParamsKey in input then
      var params := input[TaskCreationParamsKey];
      Some(CreationParams(params, configFactory(params.id)))
    else
      None
  }

  /** `performWork`, without the notification posted first: `false` without creation
      parameters, otherwise the outcome of submitting them. */
  function PerformWork(r: Registry, input: WorkData, configFactory: string -> NotificationConfig, classes: Classes): (s: Step<bool>)
    ensures TaskCreationParamsKey !in input ==> s == Step(r, false)
    ensures s.value <==>
      && TaskCreationParamsKey in input
      && input[TaskCreationParamsKey].id !in r.tasks
      && classes.resolves(input[TaskCreationParamsKey].taskClass)
      && classes.extendsUploadTask(input[TaskCreationParamsKey].taskClass)
      && classes.constructible(input[TaskCreationParamsKey].taskClass)
    ensures s.value ==>
      var id := input[TaskCreationParamsKey].id;
      && id in s.registry.tasks
      && s.registry.tasks[id].params == input[TaskCreationParamsKey]
      && s.registry.tasks[id].notificationConfig == configFactory(id)
  {
    match WorkerCreationParameters(input, configFactory)
    case None => Step(r, false)
    case Some(creation) => Submit(r, creation, classes)
  }

  /** An upload started with `startNewUpload` is registered, when the worker runs it,
      under the very id `startNewUpload` returned, with the configuration the factory
      chooses for that id. The equality of the registered parameters with the ones passed
      rests on the work data carrying them unencoded: in the code it depends on
      `createFromPersistableData(fromJson(toJson(params)))` giving back `params`. */
  lemma StartedUploadRegisteredUnderReturnedId(
    r: Registry, params: TaskParams, config: NotificationConfig,
    configFactory: string -> NotificationConfig, classes: Classes)
    requires params.id !in r.tasks
    requires classes.resolves(params.taskClass) && classes.extendsUploadTask(params.taskClass)
    requires classes.constructible(params.taskClass)
    ensures var (id, request) := StartNewUpload(params, config);
      var s := PerformWork(r, request.inputData, configFactory, classes);
      && s.value
      && id in s.registry.tasks
      && s.registry.tasks[id].params == params
      && s.registry.tasks[id].notificationConfig == configFactory(id)
  {
  }

  /** Submission keeps each task registered under its own id. */
  lemma SubmitKeepsKeyedById(r: Registry, creation: CreationParams, classes: Classes)
    requires KeyedById(r)
    ensures KeyedById(Submit(r, creation, classes).registry)
  {
  }

  /** A second submission of a registered id is rejected and leaves the registry, its
      size and the counter as they were. */
  lemma DuplicateSubmissionRejected(
    r: Registry, first: CreationParams, second: CreationParams, c1: Classes, c2: Classes)
    requires Submit(r, first, c1).value
    requires second.params.id == first.params.id
    ensures var r1 := Submit(r, first, c1).registry;
      var s := Submit(r1, second, c2);
      !s.value && s.registry == r1 && |s.registry.tasks| == |r1.tasks|
  {
  }

  /** Once one upload holds the slot, another cannot claim it, and the holder stays registered. */
  lemma SecondHoldRefused(r: Registry, a: string, b: string)
    requires r.foreground.None? && a != b && a in r.tasks
    ensures var s1 := HoldForegroundNotification(r, a);
      var s2 := HoldForegroundNotification(s1.registry, b);
      s1.value && !s2.value && s2.registry.foreground == Some(a) && a in s2.registry.tasks
  {
  }

  /** Completing some other upload never takes the slot from its holder. */
  lemma StaleCompletionKeepsSlot(cfg: ServiceConfig, r: Registry, a: string, b: string)
    requires KeyedById(r) && r.foreground == Some(a) && a != b
    ensures TaskCompleted(cfg, r, b).foreground == Some(a)
  {
  }

  /** In foreground-service mode, completing the upload that claimed the slot frees it. */
  lemma HoldThenCompleteFreesSlot(cfg: ServiceConfig, r: Registry, a: string)
    requires cfg.isForegroundService && KeyedById(r) && r.foreground.None? && a in r.tasks
    ensures var s := HoldForegroundNotification(r, a);
      s.value && TaskCompleted(cfg, s.registry, a).foreground == None
  {
  }
}
