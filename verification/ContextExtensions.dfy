/** `ContextExtensions.kt`: starting an upload, validating the intent that describes
    one, instantiating its task, and the cancel action carried by notification intents. */
module ContextExtensions {

  import opened Wrappers
  import opened Data
  import opened Int32

  // Intent extra keys and the cancel action name.
  const TaskParametersKey: string := "taskParameters"
  const TaskNotificationConfigKey: string := "taskUploadConfig"
  const ActionKey: string := "action"
  const UploadIdKey: string := "uploadId"
  const CancelUploadAction: string := "cancelUpload"

  // `PendingIntent` flag bits of the Android platform.
  const FlagImmutable: bv32 := 0x0400_0000
  const FlagOneShot: bv32 := 0x4000_0000

  /** The value stored under one extra key of an intent. */
  datatype Extra =
    | StringExtra(text: string)
    | ParamsExtra(params: TaskParams)
    | ConfigExtra(config: NotificationConfig)

  /** An Android `Intent`: its action, target package and extras. */
  datatype Intent = Intent(action: Option<string>, targetPackage: Option<string>, extras: map<string, Extra>)

  /** A `PendingIntent` broadcast: the wrapped intent and its flags. The request code
      (the upload id's `hashCode`) is not modelled. */
  datatype PendingIntent = PendingIntent(intent: Intent, flags: bv32)

  /** `UploadTaskCreationParameters`. */
  datatype CreationParams = CreationParams(params: TaskParams, notificationConfig: NotificationConfig)

  /** The first check of `getUploadTaskCreationParameters` that failed; each one
      logs its own message before the function returns `null`. */
  datatype CreationError =
    | InvalidIntent
    | MissingTaskParameters
    | TaskClassNotFound
    | NotAnUploadTask
    | MissingNotificationConfig

  /** A work request handed to `WorkManager`. */
  datatype WorkRequest = WorkRequest(inputData: WorkData)

  /** `Intent.getStringExtra`: `null` when the key is absent or holds no string. */
  function GetStringExtra(i: Intent, key: string): Option<string>
  {
    if key in i.extras && i.extras[key].StringExtra? then Some(i.extras[key].text) else None
  }

  /** `parcelableCompat<UploadTaskParameters>`: both SDK branches yield `null` when the
      key is absent or holds a value of another type. */
  function GetParamsExtra(i: Intent, key: string): Option<TaskParams>
  {
    if key in i.extras && i.extras[key].ParamsExtra? then Some(i.extras[key].params) else None
  }

  /** `parcelableCompat<UploadNotificationConfig>`. */
  function GetConfigExtra(i: Intent, key: string): Option<NotificationConfig>
  {
    if key in i.extras && i.extras[key].ConfigExtra? then Some(i.extras[key].config) else None
  }

  /** `startNewUpload`: enqueues a work request carrying the parameters and returns the
      upload id. The notification configuration argument is not stored anywhere. */
  function StartNewUpload(params: TaskParams, notificationConfig: NotificationConfig): (res: (string, WorkRequest))
    ensures res.0 == params.id
    ensures TaskCreationParamsKey in res.1.inputData && res.1.inputData[TaskCreationParamsKey] == params
    ensures res.1.inputData.Keys == {TaskCreationParamsKey}
  {
    (params.id, WorkRequest(map[TaskCreationParamsKey := params]))
  }

  /** The notification configuration given to `startNewUpload` has no influence on
      what is enqueued: the worker later asks its configuration factory instead. */
  lemma StartNewUploadIgnoresConfig(params: TaskParams, c1: NotificationConfig, c2: NotificationConfig)
    ensures StartNewUpload(params, c1) == StartNewUpload(params, c2)
  {
  }

  /** The intent is present and its action is the library's upload action. */
  predicate IsUploadIntent(cfg: ServiceConfig, intent: Option<Intent>)
  {
    intent.Some? && intent.value.action == Some(cfg.uploadAction)
  }

  /** `getUploadTaskCreationParameters`, keeping the reason of each `null` return. */
  function CheckCreationParameters(cfg: ServiceConfig, classes: Classes, intent: Option<Intent>): (r: Result<CreationParams, CreationError>)
    ensures r == Err(InvalidIntent) <==> !IsUploadIntent(cfg, intent)
    ensures r == Err(MissingTaskParameters) <==>
      IsUploadIntent(cfg, intent) && GetParamsExtra(intent.value, TaskParametersKey).None?
    ensures r == Err(TaskClassNotFound) <==>
      && IsUploadIntent(cfg, intent)
      && GetParamsExtra(intent.value, TaskParametersKey).Some?
      && !classes.resolves(GetParamsExtra(intent.value, TaskParametersKey).value.taskClass)
    ensures r == Err(NotAnUploadTask) <==>
      && IsUploadIntent(cfg, intent)
      && GetParamsExtra(intent.value, TaskParametersKey).Some?
      && classes.resolves(GetParamsExtra(intent.value, TaskParametersKey).value.taskClass)
      && !classes.extendsUploadTask(GetParamsExtra(intent.value, TaskParametersKey).value.taskClass)
    ensures r == Err(MissingNotificationConfig) <==>
      && IsUploadIntent(cfg, intent)
      && GetParamsExtra(intent.value, TaskParametersKey).Some?
      && classes.resolves(GetParamsExtra(intent.value, TaskParametersKey).value.taskClass)
      && classes.extendsUploadTask(GetParamsExtra(intent.value, TaskParametersKey).value.taskClass)
      && GetConfigExtra(intent.value, TaskNotificationConfigKey).None?
    ensures r.Ok? ==>
      && IsUploadIntent(cfg, intent)
      && GetParamsExtra(intent.value, TaskParametersKey) == Some(r.value.params)
      && GetConfigExtra(intent.value, TaskNotificationConfigKey) == Some(r.value.notificationConfig)
  {
    if !IsUploadIntent(cfg, intent) then Err(InvalidIntent)
    else
      var i := intent.value;
      match GetParamsExtra(i, TaskParametersKey)
      case None => Err(MissingTaskParameters)
      case Some(params) =>
        if !classes.resolves(params.taskClass) then Err(TaskClassNotFound)
        else if !classes.extendsUploadTask(params.taskClass) then Err(NotAnUploadTask)
        else
          match GetConfigExtra(i, TaskNotificationConfigKey)
          case None => Err(MissingNotificationConfig)
          case Some(config) => Ok(CreationParams(params, config))
  }

  /** Everything `getUploadTaskCreationParameters` demands of an intent. */
  predicate ValidCreationIntent(cfg: ServiceConfig, classes: Classes, i: Intent)
  {
    && i.action == Some(cfg.uploadAction)
    && TaskParametersKey in i.extras && i.extras[TaskParametersKey].ParamsExtra?
    && classes.resolves(i.extras[TaskParametersKey].params.taskClass)
    && classes.extendsUploadTask(i.extras[TaskParametersKey].params.taskClass)
    && TaskNotificationConfigKey in i.extras && i.extras[TaskNotificationConfigKey].ConfigExtra?
  }

  /** `getUploadTaskCreationParameters`: `null`, or the parameters and configuration read
      from the intent. */
  function GetUploadTaskCreationParameters(cfg: ServiceConfig, classes: Classes, intent: Option<Intent>): (r: Option<CreationParams>)
    ensures r.Some? <==> intent.Some? && ValidCreationIntent(cfg, classes, intent.value)
    ensures r.Some? ==>
      && r.value.params == intent.value.extras[TaskParametersKey].params
      && r.value.notificationConfig == intent.value.extras[TaskNotificationConfigKey].config
  {
    CheckCreationParameters(cfg, classes, intent).ToOption()
  }

  /** The class is looked up only once the parameters are present: with parameters
      missing, no answer of the reflection oracle changes the outcome. */
  lemma ClassesNotConsultedWithoutParams(cfg: ServiceConfig, c1: Classes, c2: Classes, i: Intent)
    requires GetParamsExtra(i, TaskParametersKey).None?
    ensures CheckCreationParameters(cfg, c1, Some(i)) == CheckCreationParameters(cfg, c2, Some(i))
  {
  }

  /** The notification configuration is read last: when the class check fails, what
      the intent holds under the configuration key does not matter. */
  lemma ConfigNotConsultedAfterClassFailure(cfg: ServiceConfig, classes: Classes, i: Intent, other: Extra)
    requires IsUploadIntent(cfg, Some(i))
    requires GetParamsExtra(i, TaskParametersKey).Some?
    requires var c := GetParamsExtra(i, TaskParametersKey).value.taskClass;
      !classes.resolves(c) || !classes.extendsUploadTask(c)
    ensures var j := i.(extras := i.extras[TaskNotificationConfigKey := other]);
      CheckCreationParameters(cfg, classes, Some(j)) == CheckCreationParameters(cfg, classes, Some(i))
  {
  }

  /** `getUploadTask`: instantiates the named class and initialises it with the
      creation parameters and the notification id; `null` when reflection fails. */
  function GetUploadTask(classes: Classes, creation: CreationParams, notificationId: int32): (t: Option<Task>)
    ensures t.Some? <==>
      var c := creation.params.taskClass;
      classes.resolves(c) && classes.extendsUploadTask(c) && classes.constructible(c)
    ensures t.Some? ==>
      && t.value.params == creation.params
      && t.value.notificationConfig == creation.notificationConfig
      && t.value.notificationId == notificationId
  {
    var c := creation.params.taskClass;
    if classes.resolves(c) && classes.extendsUploadTask(c) && classes.constructible(c) then
      Some(Task(creation.params, creation.notificationConfig, notificationId))
    else
      None
  }

  /** `flagsCompat`: on SDK levels above 30 the immutable flag is added. */
  function FlagsCompat(sdk: int, flags: bv32): (r: bv32)
    ensures r & flags == flags
    ensures r & !flags == (if sdk > 30 then FlagImmutable & !flags else 0)
  {
    if sdk > 30 then flags | FlagImmutable else flags
  }

  /** Applying `flagsCompat` twice is the same as applying it once. */
  lemma FlagsCompatIdempotent(sdk: int, flags: bv32)
    ensures FlagsCompat(sdk, FlagsCompat(sdk, flags)) == FlagsCompat(sdk, flags)
  {
  }

  /** `getNotificationActionIntent`: a one-shot broadcast to the library's own package,
      carrying the action and the upload id as string extras. */
  function NotificationActionIntent(cfg: ServiceConfig, sdk: int, uploadId: string, action: string): (p: PendingIntent)
    ensures p.intent.action == Some(cfg.broadcastNotificationAction)
    ensures p.intent.targetPackage == Some(cfg.namespace)
    ensures GetStringExtra(p.intent, ActionKey) == Some(action)
    ensures GetStringExtra(p.intent, UploadIdKey) == Some(uploadId)
    ensures p.flags == (if sdk > 30 then FlagOneShot | FlagImmutable else FlagOneShot)
  {
    var intent := Intent(
      Some(cfg.broadcastNotificationAction),
      Some(cfg.namespace),
      map[ActionKey := StringExtra(action), UploadIdKey := StringExtra(uploadId)]);
    PendingIntent(intent, FlagsCompat(sdk, FlagOneShot))
  }

  /** `getCancelUploadIntent`: the notification action intent that asks to cancel `uploadId`. */
  function CancelUploadIntent(cfg: ServiceConfig, sdk: int, uploadId: string): (p: PendingIntent)
    ensures p.intent.action == Some(cfg.broadcastNotificationAction)
    ensures p.intent.targetPackage == Some(cfg.namespace)
    ensures UploadIdToCancel(p.intent) == Some(uploadId)
    ensures p.flags == (if sdk > 30 then FlagOneShot | FlagImmutable else FlagOneShot)
  {
    NotificationActionIntent(cfg, sdk, uploadId, CancelUploadAction)
  }

  /** `uploadIdToCancel`: the upload id named by a cancel request, `null` for any other intent. */
  function UploadIdToCancel(i: Intent): (r: Option<string>)
    ensures GetStringExtra(i, ActionKey) != Some(CancelUploadAction) ==> r == None
    ensures GetStringExtra(i, ActionKey) == Some(CancelUploadAction) ==> r == GetStringExtra(i, UploadIdKey)
  {
    if GetStringExtra(i, ActionKey) != Some(CancelUploadAction) then None
    else GetStringExtra(i, UploadIdKey)
  }

  /** A cancel intent decodes to exactly the upload id it was built for. */
  lemma CancelIntentRoundTrip(cfg: ServiceConfig, sdk: int, uploadId: string)
    ensures UploadIdToCancel(CancelUploadIntent(cfg, sdk, uploadId).intent) == Some(uploadId)
  {
  }

  /** A notification action intent for any other action never reads as a cancel request. */
  lemma OtherActionsCancelNothing(cfg: ServiceConfig, sdk: int, uploadId: string, action: string)
    requires action != CancelUploadAction
    ensures UploadIdToCancel(NotificationActionIntent(cfg, sdk, uploadId, action).intent) == None
  {
  }
}
