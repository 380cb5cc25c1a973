/** The library types the registry works with. Their definitions live in files that
    are not part of this model (`UploadTaskParameters`, `UploadNotificationConfig`,
    `UploadTask`, `UploadServiceConfig`); only the fields the modelled code reads are kept. */
module Data {

  import opened Int32

  /** Key under which a work request carries its task parameters
      (`UploadWorker.TASK_CREATION_PARAMS_KEY`). */
  const TaskCreationParamsKey: string := "task-creation-params-key"

  /** `UploadTaskParameters`: the caller-chosen upload id and the name of the
      `UploadTask` subclass that performs the upload. */
  datatype TaskParams = TaskParams(id: string, taskClass: string)

  /** `UploadNotificationConfig`, reduced to its notification channel. */
  datatype NotificationConfig = NotificationConfig(channelId: string)

  /** A running `UploadTask`, after `init`: its parameters, its notification
      configuration and the notification id it was given. */
  datatype Task = Task(params: TaskParams, notificationConfig: NotificationConfig, notificationId: int32)

  /** The parts of the global `UploadServiceConfig` the modelled code consults. */
  datatype ServiceConfig = ServiceConfig(
    namespace: string,
    uploadAction: string,
    broadcastNotificationAction: string,
    isForegroundService: bool)

  /** Java reflection as seen from the modelled code, for a class name:
      `resolves` — `Class.forName` succeeds;
      `extendsUploadTask` — `UploadTask::class.java.isAssignableFrom` holds;
      `constructible` — `newInstance()` and `init(...)` complete without throwing. */
  datatype Classes = Classes(
    resolves: string -> bool,
    extendsUploadTask: string -> bool,
    constructible: string -> bool)

  /** `WorkManager` input data: the task parameters stored under a key. The JSON
      encoding of `PersistableData` is not modelled; the parameters are stored as they are. */
  type WorkData = map<string, TaskParams>
}
