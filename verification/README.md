# Upload registry of android-upload-service, in Dafny

This project models the part of the upload library that holds state: the process-wide
registry kept in `UploadWorker`'s companion object, the worker calls that change it,
the `TaskCompletionNotifier` observer that routes a finished task back into it, and the
pure helpers of `ContextExtensions.kt` that build and read the intents around an upload.

- `Registry` (module `UploadWorker`) is the companion state: `uploadTasksMap` as a map
  from upload id to task, `foregroundUploadId` as an optional id, `notificationIncrementalId`
  as a Kotlin `Int`, and the set of registered ids whose task has been sent `cancel()`. The signal belongs to the
  task object, so `taskCompleted` drops the id from that set along with the task. Each call is
  modelled as one atomic transition from one registry value to the next. This is an
  assumption of the model, not a guarantee of the code: `performWork` takes no lock, and
  `holdForegroundNotification` and `taskCompleted` lock the worker instance rather than the
  companion object (see "Left out").
- `Int32` writes out Kotlin's 32-bit wrap-around, which the notification counter obeys.
- `ContextExtensions` models intents as an action, a target package and a string-keyed
  map of typed extras; reflection (`Class.forName`, `isAssignableFrom`, `newInstance`)
  is an oracle (`Data.Classes`) passed in by the caller.
- `TaskCompletionNotifier` delivers observer callbacks; only `onCompleted` with a worker
  has an effect.
- `RegistryTraces` runs sequences of calls, each taken as atomic, and proves what holds along them:
  the counter's arithmetic, increasing notification ids, and the slot invariants.

Facts about the code that the model makes explicit:
- The foreground slot can outlive its task: `taskCompleted` clears it only in
  foreground-service mode, and `holdForegroundNotification` accepts any id.
  `RegistryTraces.RunKeepsSlotOwned` proves that the slot always names a registered upload
  under those two conditions, and `RegistryTraces.SlotOutlivesTaskWithoutForegroundMode`
  shows a run that leaves the slot naming an unregistered upload when foreground-service
  mode is off.
- `stopUpload` and `stopAllUploads` only signal cancellation; the entry stays until the task
  completes.
- `taskCompleted` compares the slot with the removed task's own `params.id`, and only when a
  task was removed. `UploadWorker.TaskCompletedReleasesOwnSlot` shows that this is the same
  as comparing it with the completed id while every task is keyed by its own id.
- `startNewUpload` takes a notification configuration but does not store it. The worker asks
  its configuration factory instead (`ContextExtensions.StartNewUploadIgnoresConfig`,
  `UploadWorker.StartedUploadRegisteredUnderReturnedId`).

## Model

| member | source | states |
|---|---|---|
| `UploadWorker.StopUpload` | uploadservice/src/main/java/net/gotev/uploadservice/UploadWorker.kt:43-45 | cancel is signalled to `uploadId` exactly when it is registered; no entry is removed and slot and counter are kept |
| `UploadWorker.StopAllUploads` | uploadservice/src/main/java/net/gotev/uploadservice/UploadWorker.kt:64-70 | after the walk over the key set, the signalled ids are the earlier ones plus exactly the registered ids; entries, slot and counter are kept |
| `UploadWorker.Stop` | uploadservice/src/main/java/net/gotev/uploadservice/UploadWorker.kt:79-82 | the same as stopping all uploads, for either value of `forceStop` |
| `UploadWorker.TaskList` | uploadservice/src/main/java/net/gotev/uploadservice/UploadWorker.kt:52-57 | the list holds each registered id exactly once and nothing else; it is empty exactly when the registry is |
| `UploadWorker.HoldForegroundNotification` | uploadservice/src/main/java/net/gotev/uploadservice/UploadWorker.kt:101-112 | a free slot is claimed and the call returns true; a slot held by the caller is kept and returns true; a slot held by another id is kept and returns false; the result is true exactly when the caller holds the slot afterwards |
| `UploadWorker.TaskCompleted` | uploadservice/src/main/java/net/gotev/uploadservice/UploadWorker.kt:115-123 | the id is unregistered and loses any cancel signal, and every other entry and signal is kept; the slot changes, to empty, exactly when foreground-service mode is on, the id was registered and that task's own id holds the slot |
| `UploadWorker.TaskCompletedReleasesOwnSlot` | uploadservice/src/main/java/net/gotev/uploadservice/UploadWorker.kt:117-123 | when tasks are keyed by their own ids, completion frees the slot exactly when foreground mode is on and the completed id is registered and holds it |
| `UploadWorker.Submit` | uploadservice/src/main/java/net/gotev/uploadservice/UploadWorker.kt:159-180 | a registered id is rejected with registry and counter unchanged; otherwise the counter advances by two (wrapping as an `Int`); if instantiation fails nothing is registered; if it succeeds the task is added under its id, other entries are kept, and its notification id is 1234 plus the new counter |
| `UploadWorker.WorkerCreationParameters` | uploadservice/src/main/java/net/gotev/uploadservice/UploadWorker.kt:183-196 | creation parameters exist exactly when the input data holds task parameters; the configuration is the factory's for their id |
| `UploadWorker.PerformWork` | uploadservice/src/main/java/net/gotev/uploadservice/UploadWorker.kt:157-180 | without task parameters nothing changes and the result is false; the result is true exactly when the input holds parameters whose id is unregistered and whose class can be instantiated as an `UploadTask`, and then the task is registered under that id with the factory's configuration |
| `UploadWorker.StartedUploadRegisteredUnderReturnedId` | uploadservice/src/main/java/net/gotev/uploadservice/extensions/ContextExtensions.kt:32-44 | the id returned by `startNewUpload` is the id the worker registers the task under, with the parameters passed and the factory's configuration |
| `UploadWorker.SubmitKeepsKeyedById` | uploadservice/src/main/java/net/gotev/uploadservice/UploadWorker.kt:177 | submission keeps every task registered under its own id |
| `UploadWorker.DuplicateSubmissionRejected` | uploadservice/src/main/java/net/gotev/uploadservice/UploadWorker.kt:159-165 | after an accepted submission, any submission with the same id is rejected and leaves the registry and its size unchanged |
| `UploadWorker.SecondHoldRefused` | uploadservice/src/main/java/net/gotev/uploadservice/UploadWorker.kt:101-111 | once a registered upload holds the slot, another upload's claim is refused and the holder stays registered |
| `UploadWorker.StaleCompletionKeepsSlot` | uploadservice/src/main/java/net/gotev/uploadservice/UploadWorker.kt:119-123 | completing an upload other than the holder never clears the slot |
| `UploadWorker.HoldThenCompleteFreesSlot` | uploadservice/src/main/java/net/gotev/uploadservice/UploadWorker.kt:101-123 | in foreground mode, an upload that claims the free slot and then completes leaves the slot empty |
| `RegistryTraces.RunCounter` | uploadservice/src/main/java/net/gotev/uploadservice/UploadWorker.kt:167-169 | after any run the counter is the starting counter plus two per submission past the duplicate check, wrapped to an `Int` |
| `RegistryTraces.NotificationIdsIncrease` | uploadservice/src/main/java/net/gotev/uploadservice/UploadWorker.kt:167-177 | of two accepted submissions, the later task's notification id is larger by two plus two per admitted submission between them, while the later notification id (1234 + counter) does not exceed `Int.MAX_VALUE` |
| `RegistryTraces.CounterWrapsAtIntMax` | uploadservice/src/main/java/net/gotev/uploadservice/UploadWorker.kt:169-173 | a submission admitted at counter `Int.MAX_VALUE - 1` wraps the counter to `Int.MIN_VALUE`, and the task gets notification id `Int.MIN_VALUE + 1234` |
| `RegistryTraces.NotificationIdWrapsBelowPrevious` | uploadservice/src/main/java/net/gotev/uploadservice/UploadWorker.kt:169-173 | past the bound on the notification id, ids drop: of two submissions admitted in a row from counter `Int.MAX_VALUE - 1237`, the first gets id `Int.MAX_VALUE - 1` and the second `Int.MIN_VALUE` |
| `RegistryTraces.RunKeepsKeyedById` | uploadservice/src/main/java/net/gotev/uploadservice/UploadWorker.kt:177 | every run keeps each task registered under its own id |
| `RegistryTraces.RunKeepsCancelledRegistered` | uploadservice/src/main/java/net/gotev/uploadservice/UploadWorker.kt:43-45 | along any run, only registered ids carry a cancel signal |
| `RegistryTraces.SubmittedTaskNotCancelled` | uploadservice/src/main/java/net/gotev/uploadservice/UploadWorker.kt:171-177 | while only registered tasks carry a cancel signal, a task admitted by a submission starts without one |
| `RegistryTraces.ResubmittedTaskNotCancelled` | uploadservice/src/main/java/net/gotev/uploadservice/UploadWorker.kt:115-117 | an upload that is submitted, cancelled and completed, then submitted again under the same id, is registered without a cancel signal |
| `RegistryTraces.ApplyKeepsSlotOwned` | uploadservice/src/main/java/net/gotev/uploadservice/UploadWorker.kt:101-123 | in foreground mode, a step keeps the slot owned by a registered task, provided a claim comes from a registered upload |
| `RegistryTraces.RunKeepsSlotOwned` | uploadservice/src/main/java/net/gotev/uploadservice/UploadWorker.kt:101-123 | in foreground mode, when only registered uploads claim the slot, the slot never names an unregistered upload along a run |
| `RegistryTraces.SlotOutlivesTaskWithoutForegroundMode` | uploadservice/src/main/java/net/gotev/uploadservice/UploadWorker.kt:119-123 | without foreground mode, submit, claim and complete leave the slot naming an upload that is no longer registered |
| `Int32.Add` | uploadservice/src/main/java/net/gotev/uploadservice/UploadWorker.kt:169-173 | Kotlin `Int` addition: the exact sum when it fits, otherwise the sum shifted by 2^32 |
| `ContextExtensions.StartNewUpload` | uploadservice/src/main/java/net/gotev/uploadservice/extensions/ContextExtensions.kt:32-44 | the returned id is the parameters' id; the work request carries exactly those parameters under the creation key |
| `ContextExtensions.StartNewUploadIgnoresConfig` | uploadservice/src/main/java/net/gotev/uploadservice/extensions/ContextExtensions.kt:32-44 | the notification configuration argument does not affect the enqueued request or the returned id |
| `ContextExtensions.CheckCreationParameters` | uploadservice/src/main/java/net/gotev/uploadservice/extensions/ContextExtensions.kt:51-115 | each null exit happens exactly when every earlier check passed and its own check fails, in the order: intent and action, parameters, class lookup, subtype, notification config; success returns the extras read from the intent |
| `ContextExtensions.GetUploadTaskCreationParameters` | uploadservice/src/main/java/net/gotev/uploadservice/extensions/ContextExtensions.kt:51-115 | the result is non-null exactly when the intent is an upload intent carrying parameters of a resolvable `UploadTask` subclass and a notification config, and then holds exactly those extras |
| `ContextExtensions.ClassesNotConsultedWithoutParams` | uploadservice/src/main/java/net/gotev/uploadservice/extensions/ContextExtensions.kt:63-86 | with parameters missing, the class lookup is not consulted: any reflection answers give the same outcome |
| `ContextExtensions.ConfigNotConsultedAfterClassFailure` | uploadservice/src/main/java/net/gotev/uploadservice/extensions/ContextExtensions.kt:74-109 | when the class check fails, what is stored under the notification config key does not change the outcome |
| `ContextExtensions.GetUploadTask` | uploadservice/src/main/java/net/gotev/uploadservice/extensions/ContextExtensions.kt:122-158 | a task is created exactly when the class resolves, extends `UploadTask` and can be instantiated; it carries the creation parameters, config and notification id given |
| `ContextExtensions.FlagsCompat` | uploadservice/src/main/java/net/gotev/uploadservice/extensions/ContextExtensions.kt:190-196 | every input bit is kept; the only bit that can be added is `FLAG_IMMUTABLE`, added exactly when the SDK level is above 30 |
| `ContextExtensions.FlagsCompatIdempotent` | uploadservice/src/main/java/net/gotev/uploadservice/extensions/ContextExtensions.kt:190-196 | applying the adjustment twice is the same as once |
| `ContextExtensions.NotificationActionIntent` | uploadservice/src/main/java/net/gotev/uploadservice/extensions/ContextExtensions.kt:160-178 | the broadcast goes to the library's namespace with the action and upload id as string extras, and its flags are exactly `FLAG_ONE_SHOT`, plus `FLAG_IMMUTABLE` above SDK 30 |
| `ContextExtensions.CancelUploadIntent` | uploadservice/src/main/java/net/gotev/uploadservice/extensions/ContextExtensions.kt:180-181 | the cancel intent is a broadcast to the library's namespace that decodes to exactly the given upload id, with flags exactly `FLAG_ONE_SHOT`, plus `FLAG_IMMUTABLE` above SDK 30 |
| `ContextExtensions.UploadIdToCancel` | uploadservice/src/main/java/net/gotev/uploadservice/extensions/ContextExtensions.kt:183-187 | null whenever the action extra is not `cancelUpload`, otherwise the `uploadId` string extra |
| `ContextExtensions.CancelIntentRoundTrip` | uploadservice/src/main/java/net/gotev/uploadservice/extensions/ContextExtensions.kt:164-187 | the intent built for cancelling `id` decodes to exactly `id` |
| `ContextExtensions.OtherActionsCancelNothing` | uploadservice/src/main/java/net/gotev/uploadservice/extensions/ContextExtensions.kt:183-187 | a notification action intent for any other action decodes to no cancel request |
| `TaskCompletionNotifier.Notify` | uploadservice/src/main/java/net/gotev/uploadservice/observer/task/TaskCompletionNotifier.kt:9-45 | start, progress, success and error change nothing; completion changes nothing without a worker, and with one unregisters exactly the completed id, drops its cancel signal, and keeps the rest |
| `TaskCompletionNotifier.CompletionIsTaskCompleted` | uploadservice/src/main/java/net/gotev/uploadservice/observer/task/TaskCompletionNotifier.kt:39-45 | completion with a worker is exactly `taskCompleted` of the upload id |
| `TaskCompletionNotifier.DefaultNotifierInert` | uploadservice/src/main/java/net/gotev/uploadservice/observer/task/TaskCompletionNotifier.kt:8-45 | the observer built without a worker changes nothing for any callback |
| `TaskCompletionNotifier.CompletionFreesForegroundSlot` | uploadservice/src/main/java/net/gotev/uploadservice/observer/task/TaskCompletionNotifier.kt:39-45 | in foreground mode, completion of the upload holding the slot frees it |

## Left out

- Notification posting and removal, the notification permission check and the builder calls in `performWork`, `showNotification` and `removeNotification`: platform I/O. Apart from the exception described next, they do not affect the registry.
- `UploadWorker.PerformWork` assumes `UploadServiceConfig.defaultNotificationChannel` is set. If it is null, the `!!` at UploadWorker.kt:149 throws before the registry is read, so nothing is registered and the counter does not move; the model does not represent that exception.
- `doWork` and `setup`: registering the notification actions observer and mapping the boolean to a WorkManager result are framework calls.
- `WorkManager` enqueueing: `startNewUpload` returns the work request instead of enqueueing it.
- The JSON encoding of `PersistableData`: its code is not part of this model, so the work request carries the task parameters as they are.
- Reflection: class lookup, the subtype check and instantiation are oracle functions supplied by the caller.
- `PendingIntent.getBroadcast` and its request code (`String.hashCode`): the model keeps the wrapped intent and the flags only.
- `parcelableCompat`'s two SDK branches: both return null for a missing or mistyped extra, so they are modelled once.
- `registerReceiverCompat`: a framework call with no state of its own.
- Executing the task on the thread pool: only its registration is modelled.
- `ConcurrentHashMap` and `@Volatile` semantics: each call is one atomic step.
- The missing lock in `performWork`: its check-then-put on `uploadTasksMap` and its `notificationIncrementalId += 2` on a plain `var` can interleave between workers. Two workers can then admit the same id, and a lost update can give two tasks the same notification id. The model runs each `performWork` atomically, so it does not show these races.
- The per-instance lock of `holdForegroundNotification` and `taskCompleted`: `@Synchronized` on an instance method locks that worker, not the companion state. Two workers can both see an empty slot. The model runs each call atomically.
- The KDoc of `stop` promises that without `forceStop` the service stops only when no task is active, and that the call returns whether the service is stopping. The code ignores `forceStop` and returns `Unit`. `UploadWorker.Stop` follows the code, so neither promise is modelled.
- Logging, including the "all tasks completed" message at the end of `taskCompleted`.
- `UploadServiceTestSuite.kt`: test set-up and tear-down with no logic of its own.
- `UploadWorker.TaskList`: the order of the returned ids is left open, as the key order of `ConcurrentHashMap` is.
