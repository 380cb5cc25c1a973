/** `TaskCompletionNotifier`: the task observer through which a finished task tells
    the worker to unregister it. Only the completion callback has an effect. */
module TaskCompletionNotifier {

  import opened Wrappers
  import opened Data
  import opened UploadWorker

  /** `UploadInfo`, reduced to the upload id. */
  datatype UploadInfo = UploadInfo(uploadId: string)

  /** The callbacks of `UploadTaskObserver`; the notification id, configuration,
      server response and exception they also receive are ignored by this observer. */
  datatype Event =
    | OnStart(info: UploadInfo)
    | OnProgress(info: UploadInfo)
    | OnSuccess(info: UploadInfo)
    | OnError(info: UploadInfo)
    | OnCompleted(info: UploadInfo)

  /** The observer; `hasWorker` says whether it was built with a worker. */
  datatype Notifier = Notifier(hasWorker: bool)

  /** `TaskCompletionNotifier()`: the default, with no worker. */
  const DefaultNotifier: Notifier := Notifier(false)

  /** Delivers one callback to the observer: the registry afterwards. */
  function Notify(cfg: ServiceConfig, n: Notifier, r: Registry, e: Event): (r': Registry)
    ensures !e.OnCompleted? ==> r' == r
    ensures e.OnCompleted? && !n.hasWorker ==> r' == r
    ensures e.OnCompleted? && n.hasWorker ==>
      && e.info.uploadId !in r'.tasks
      && (forall id :: id != e.info.uploadId ==> (id in r'.tasks <==> id in r.tasks))
      && e.info.uploadId !in r'.cancelled
      && (forall id :: id != e.info.uploadId ==> (id in r'.cancelled <==> id in r.cancelled))
      && r'.counter == r.counter
  {
    match e
    case OnCompleted(info) => if n.hasWorker then TaskCompleted(cfg, r, info.uploadId) else r
    case _ => r
  }

  /** The completion callback of an observer with a worker is exactly `taskCompleted`. */
  lemma CompletionIsTaskCompleted(cfg: ServiceConfig, r: Registry, info: UploadInfo)
    ensures Notify(cfg, Notifier(true), r, OnCompleted(info)) == TaskCompleted(cfg, r, info.uploadId)
  {
  }

  /** The default observer changes nothing, whatever it is told. */
  lemma DefaultNotifierInert(cfg: ServiceConfig, r: Registry, e: Event)
    ensures Notify(cfg, DefaultNotifier, r, e) == r
  {
  }

  /** In foreground-service mode, completion of the upload holding the slot frees the slot. */
  lemma CompletionFreesForegroundSlot(cfg: ServiceConfig, r: Registry, uploadId: string)
    requires cfg.isForegroundService && KeyedById(r)
    requires uploadId in r.tasks && r.foreground == Some(uploadId)
    ensures Notify(cfg, Notifier(true), r, OnCompleted(UploadInfo(uploadId))).foreground.None?
  {
  }
}
