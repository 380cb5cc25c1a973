/** Sequences of registry operations, as the worker threads issue them one
    call at a time, each taken as atomic, and the properties that hold along them. */
module RegistryTraces {

  import opened Wrappers
  import opened Int32
  import opened Data
  import opened ContextExtensions
  import opened UploadWorker

  /** One registry call, taken as atomic. `stopAllUploads` is a sequence of `Cancel` steps,
      one per registered id, and `taskList` changes nothing. */
  datatype Op =
    | Submit(creation: CreationParams, classes: Classes)
    | Hold(uploadId: string)
    | Complete(uploadId: string)
    | Cancel(uploadId: string)

  function Apply(cfg: ServiceConfig, r: Registry, op: Op): Registry
  {
    match op
    case Submit(creation, classes) => UploadWorker.Submit(r, creation, classes).registry
    case Hold(id) => HoldForegroundNotification(r, id).registry
    case Complete(id) => TaskCompleted(cfg, r, id)
    case Cancel(id) => StopUpload(r, id)
  }

  function Run(cfg: ServiceConfig, r: Registry, ops: seq<Op>): Registry
    decreases |ops|
  {
    if ops == [] then r else Run(cfg, Apply(cfg, r, ops[0]), ops[1..])
  }

  /** How many submissions along the run got past the duplicate check, and so stepped the counter. */
  function Advances(cfg: ServiceConfig, r: Registry, ops: seq<Op>): nat
    decreases |ops|
  {
    if ops == [] then 0
    else
      var stepped := if ops[0].Submit? && Admissible(r, ops[0].creation) then 1 else 0;
      stepped + Advances(cfg, Apply(cfg, r, ops[0]), ops[1..])
  }

  /** The counter after a run is the starting counter plus two per admitted submission,
      wrapped to a Kotlin `Int`. */
  lemma {:induction false} RunCounter(cfg: ServiceConfig, r: Registry, ops: seq<Op>)
    ensures Run(cfg, r, ops).counter == Wrap(r.counter + 2 * Advances(cfg, r, ops))
    decreases |ops|
  {
    if ops != [] {
      var r1 := Apply(cfg, r, ops[0]);
      var d := if ops[0].Submit? && Admissible(r, ops[0].creation) then 1 else 0;
      assert r1.counter == Wrap(r.counter + 2 * d);
      RunCounter(cfg, r1, ops[1..]);
      WrapAdd(r.counter + 2 * d, 2 * Advances(cfg, r1, ops[1..]));
    }
  }

  /** Two accepted submissions with any run of operations between them: the later task's
      notification id exceeds the earlier one's by two per admitted submission in between
      plus two, so at least two, as long as the later notification id (1234 plus the
      counter) does not exceed `Int.MAX_VALUE`. */
  lemma {:induction false} NotificationIdsIncrease(
    cfg: ServiceConfig, r: Registry,
    first: CreationParams, c1: Classes,
    ops: seq<Op>,
    second: CreationParams, c2: Classes)
    requires UploadWorker.Submit(r, first, c1).value
    requires UploadWorker.Submit(Run(cfg, UploadWorker.Submit(r, first, c1).registry, ops), second, c2).value
    requires UploadNotificationBaseId + r.counter
      + 2 * Advances(cfg, UploadWorker.Submit(r, first, c1).registry, ops) + 4 <= Max
    ensures
      var r1 := UploadWorker.Submit(r, first, c1).registry;
      var r2 := UploadWorker.Submit(Run(cfg, r1, ops), second, c2).registry;
      && r2.tasks[second.params.id].notificationId - r1.tasks[first.params.id].notificationId
         == 2 * Advances(cfg, r1, ops) + 2
      && r2.tasks[second.params.id].notificationId >= r1.tasks[first.params.id].notificationId + 2
  {
    var r1 := UploadWorker.Submit(r, first, c1).registry;
    var a := Advances(cfg, r1, ops);
    assert r1.counter == r.counter + 2;
    assert r1.tasks[first.params.id].notificationId == UploadNotificationBaseId + r.counter + 2;
    var mid := Run(cfg, r1, ops);
    RunCounter(cfg, r1, ops);
    assert mid.counter == r.counter + 2 + 2 * a;
    var r2 := UploadWorker.Submit(mid, second, c2).registry;
    assert r2.counter == r.counter + 4 + 2 * a;
  }

  /** The counter itself wraps: a submission admitted at `Int.MAX_VALUE - 1` moves the
      counter to `Int.MIN_VALUE`, and the task gets notification id `Int.MIN_VALUE + 1234`. */
  lemma CounterWrapsAtIntMax(r: Registry, creation: CreationParams, classes: Classes)
    requires r.counter == Max - 1
    requires UploadWorker.Submit(r, creation, classes).value
    ensures var r' := UploadWorker.Submit(r, creation, classes).registry;
      && r'.counter == Min
      && r'.tasks[creation.params.id].notificationId == UploadNotificationBaseId + Min
  {
  }

  /** Past the bound of `NotificationIdsIncrease` the notification id drops. Of two
      submissions admitted one after the other from counter `Int.MAX_VALUE - 1237`, the
      first gets id `Int.MAX_VALUE - 1` and the second `Int.MIN_VALUE`, because base plus
      counter wraps some 600 submissions before the counter does. */
  lemma NotificationIdWrapsBelowPrevious(
    r: Registry, first: CreationParams, c1: Classes, second: CreationParams, c2: Classes)
    requires r.counter == Max - 1237
    requires UploadWorker.Submit(r, first, c1).value
    requires UploadWorker.Submit(UploadWorker.Submit(r, first, c1).registry, second, c2).value
    ensures
      var r1 := UploadWorker.Submit(r, first, c1).registry;
      var r2 := UploadWorker.Submit(r1, second, c2).registry;
      && r1.tasks[first.params.id].notificationId == Max - 1
      && r2.tasks[second.params.id].notificationId == Min
      && r2.tasks[second.params.id].notificationId < r1.tasks[first.params.id].notificationId
  {
  }

  /** Every step keeps each task registered under its own id. */
  lemma {:induction false} RunKeepsKeyedById(cfg: ServiceConfig, r: Registry, ops: seq<Op>)
    requires KeyedById(r)
    ensures KeyedById(Run(cfg, r, ops))
    decreases |ops|
  {
    if ops != [] {
      var r1 := Apply(cfg, r, ops[0]);
      if ops[0].Submit? {
        SubmitKeepsKeyedById(r, ops[0].creation, ops[0].classes);
      }
      assert KeyedById(r1);
      RunKeepsKeyedById(cfg, r1, ops[1..]);
    }
  }

  /** A cancel signal is only ever held by a registered task, along any run. */
  lemma {:induction false} RunKeepsCancelledRegistered(cfg: ServiceConfig, r: Registry, ops: seq<Op>)
    requires CancelledRegistered(r)
    ensures CancelledRegistered(Run(cfg, r, ops))
    decreases |ops|
  {
    if ops != [] {
      var r1 := Apply(cfg, r, ops[0]);
      assert CancelledRegistered(r1);
      RunKeepsCancelledRegistered(cfg, r1, ops[1..]);
    }
  }

  /** A task admitted by a submission starts without a cancel signal, as long as only
      registered tasks carry one. */
  lemma SubmittedTaskNotCancelled(r: Registry, creation: CreationParams, classes: Classes)
    requires CancelledRegistered(r)
    requires UploadWorker.Submit(r, creation, classes).value
    ensures creation.params.id !in UploadWorker.Submit(r, creation, classes).registry.cancelled
  {
  }

  /** An upload cancelled and completed, then submitted again under the same id, starts
      without a cancel signal: the new task was never sent `cancel()`. */
  lemma ResubmittedTaskNotCancelled()
    ensures
      var cfg := ServiceConfig("ns", "ns.upload", "ns.notification", true);
      var classes := Classes(_ => true, _ => true, _ => true);
      var creation := CreationParams(TaskParams("a", "Task"), NotificationConfig("ch"));
      var r := Run(cfg, Initial, [Submit(creation, classes), Cancel("a"), Complete("a"), Submit(creation, classes)]);
      "a" in r.tasks && "a" !in r.cancelled
  {
    var cfg := ServiceConfig("ns", "ns.upload", "ns.notification", true);
    var classes := Classes(_ => true, _ => true, _ => true);
    var creation := CreationParams(TaskParams("a", "Task"), NotificationConfig("ch"));
    var ops := [Submit(creation, classes), Cancel("a"), Complete("a"), Submit(creation, classes)];
    var r1 := Apply(cfg, Initial, ops[0]);
    var r2 := Apply(cfg, r1, ops[1]);
    assert "a" in r2.cancelled;
    var r3 := Apply(cfg, r2, ops[2]);
    assert "a" !in r3.tasks && "a" !in r3.cancelled;
    var r4 := Apply(cfg, r3, ops[3]);
    assert "a" in r4.tasks && "a" !in r4.cancelled;
    assert Run(cfg, Initial, ops) == Run(cfg, r1, ops[1..]);
    assert ops[1..][1..] == ops[2..];
    assert Run(cfg, r1, ops[1..]) == Run(cfg, r2, ops[2..]);
    assert ops[2..][1..] == [ops[3]];
    assert Run(cfg, r2, ops[2..]) == Run(cfg, r3, [ops[3]]);
    assert Run(cfg, r3, [ops[3]]) == Run(cfg, r4, []);
  }

  /** Along the run, the slot is only ever claimed by a registered upload. */
  ghost predicate HoldsByRegistered(cfg: ServiceConfig, r: Registry, ops: seq<Op>)
    decreases |ops|
  {
    ops != [] ==>
      && (ops[0].Hold? ==> ops[0].uploadId in r.tasks)
      && HoldsByRegistered(cfg, Apply(cfg, r, ops[0]), ops[1..])
  }

  /** In foreground-service mode, a step keeps the slot owned by a registered task,
      provided a claim comes from a registered upload. */
  lemma ApplyKeepsSlotOwned(cfg: ServiceConfig, r: Registry, op: Op)
    requires cfg.isForegroundService && KeyedById(r) && SlotOwned(r)
    requires op.Hold? ==> op.uploadId in r.tasks
    ensures SlotOwned(Apply(cfg, r, op))
  {
  }

  /** The same along a whole run. */
  lemma {:induction false} RunKeepsSlotOwned(cfg: ServiceConfig, r: Registry, ops: seq<Op>)
    requires cfg.isForegroundService && KeyedById(r) && SlotOwned(r)
    requires HoldsByRegistered(cfg, r, ops)
    ensures SlotOwned(Run(cfg, r, ops))
    decreases |ops|
  {
    if ops != [] {
      var r1 := Apply(cfg, r, ops[0]);
      ApplyKeepsSlotOwned(cfg, r, ops[0]);
      RunKeepsKeyedById(cfg, r, [ops[0]]);
      assert Run(cfg, r, [ops[0]]) == r1;
      RunKeepsSlotOwned(cfg, r1, ops[1..]);
    }
  }

  /** Outside foreground-service mode the slot is never released: after the holder
      completes, the slot still names an upload that is no longer registered. */
  lemma SlotOutlivesTaskWithoutForegroundMode()
    ensures
      var cfg := ServiceConfig("ns", "ns.upload", "ns.notification", false);
      var classes := Classes(_ => true, _ => true, _ => true);
      var creation := CreationParams(TaskParams("a", "Task"), NotificationConfig("ch"));
      var r := Run(cfg, Initial, [Submit(creation, classes), Hold("a"), Complete("a")]);
      r.foreground == Some("a") && "a" !in r.tasks && !SlotOwned(r)
  {
    var cfg := ServiceConfig("ns", "ns.upload", "ns.notification", false);
    var classes := Classes(_ => true, _ => true, _ => true);
    var creation := CreationParams(TaskParams("a", "Task"), NotificationConfig("ch"));
    var ops := [Submit(creation, classes), Hold("a"), Complete("a")];
    var r1 := Apply(cfg, Initial, ops[0]);
    assert "a" in r1.tasks;
    var r2 := Apply(cfg, r1, ops[1]);
    assert r2.foreground == Some("a");
    var r3 := Apply(cfg, r2, ops[2]);
    assert r3.foreground == Some("a");
    assert Run(cfg, Initial, ops) == Run(cfg, r1, ops[1..]);
    assert ops[1..][1..] == [ops[2]];
    assert Run(cfg, r1, ops[1..]) == Run(cfg, r2, [ops[2]]);
    assert Run(cfg, r2, [ops[2]]) == Run(cfg, r3, []);
  }
}
