/**
 The running service over the heap: API calls, worker goroutines and cancellation in any order,
 each worker a stage at a time, proved to be the runs of the step relation.
 */
module Conduct {
  import opened Storage
  import opened Fsm
  import opened Lifecycle
  import opened Engine
  import Agreement
  import Application
  import Backoff
  import Broker

  /** A create asks for the one backend that the heap has. */
  predicate OnMock(step: Step) {
    step.Create? ==> step.backend == "mock"
  }

  ghost predicate AllOnMock(steps: seq<Step>) {
    forall step <- steps :: OnMock(step)
  }

  /** A record that was inserted is born pending. */
  function BirthsAfter(c: Core, step: Step, w: World): map<string, State> {
    if step.Create? && step.name !in c.world.db && step.name in w.db then c.born[step.id := Pending] else c.born
  }

  /** What a call makes of the system, from what it does to the world and the task it starts. */
  lemma CallResponds(max: nat, c: Core, step: Step, w: World, spawned: Option<Task>)
    requires Enabled(c, step) && !step.Advance? && !step.Cancel?
    requires w == ResponseTo(c, step).world && spawned == ResponseTo(c, step).spawned
    ensures var workers := if spawned.Some? then c.workers + [Start(spawned.value)] else c.workers;
            Next(max, c, step) == Core(w, BirthsAfter(c, step, w), workers, c.cancelled)
  {
  }

  class Service {
    const app: Application.Application
    var workers: seq<Worker>
    var cancelled: bool
    ghost var born: map<string, State>

    constructor (app: Application.Application, ghost born: map<string, State>)
      ensures this.app == app && workers == [] && !cancelled && this.born == born
    {
      this.app := app;
      this.workers, this.cancelled, this.born := [], false, born;
    }

    /** The stores, the log, the feed and the goroutines, as one value. */
    ghost function AsCore(): Core
      reads this, app, app.repo, app.repo.Repr, app.backend, app.backend.Repr, app.broker, app.broker.Repr,
        app.broker.Bufs
      requires app.Valid()
    {
      Core(app.Now(), born, workers, cancelled)
    }

    /** One stage of one worker. */
    method WorkOnce(k: Worker, choice: Choice) returns (k': Worker)
      requires app.Valid()
      modifies app.repo, app.backend, app.backend.Repr, app.broker`feed, app.broker.Repr
      ensures app.broker.Announced()
      ensures app.Valid() && fresh(app.repo.Repr - old(app.repo.Repr))
      ensures fresh(app.backend.Repr - old(app.backend.Repr))
      ensures (app.Now(), k') == Work(app.policy.maxAttempts, old(app.Now()), k, choice)
    {
      hide Application.Application.Valid, Application.Application.Now, Lifecycle.ApplyEvent, Lifecycle.Call;
      var name, f := k.task.name, choice.faults;
      k' := k.(pc := Done);
      match k.pc
      case Check =>
        if !choice.stop {
          k' := k.(pc := Calling);
        }
      case Calling =>
        var ok := app.CallBackend(k.task, choice.reply, choice.uuid);
        k' := k.(pc := if ok then Succeeded else Failed);
      case Succeeded =>
        var _, _ := app.ReloadAndApply(name, Success(k.task.kind), Some(k.task.kind), f);
      case Failed =>
        var loaded, applied := app.ReloadAndApply(name, EventError, None, f);
        if loaded && applied {
          k' := k.(pc := if k.attempt == app.policy.maxAttempts then Exhausted else Waiting);
        }
      case Exhausted =>
        var _, _ := app.ReloadAndApply(name, EventFail, None, f);
      case Waiting =>
        if !choice.stop {
          k' := k.(pc := Retrying);
        }
      case Retrying =>
        var loaded, applied := app.ReloadAndApply(name, EventRetry, None, f);
        if !loaded || applied {
          k' := k.(pc := Check, attempt := k.attempt + 1);
        }
      case Done =>
    }

    /** One API call, and the task it starts, if any. */
    method Invoke(step: Step) returns (spawned: Option<Task>)
      requires app.Valid() && Enabled(AsCore(), step) && OnMock(step) && !step.Advance? && !step.Cancel?
      modifies app.repo, app.broker`feed, app.broker.Repr
      ensures app.broker.Announced()
      ensures app.Valid() && fresh(app.repo.Repr - old(app.repo.Repr))
      ensures app.Now() == ResponseTo(old(AsCore()), step).world && spawned == ResponseTo(old(AsCore()), step).spawned
    {
      hide Application.Application.Valid, Application.Application.Now;
      hide Lifecycle.CreateVolume, Lifecycle.AttachVolume, Lifecycle.ReleaseVolume, Lifecycle.ReconcileVolume;
      match step
      case Create(name, sizeMB, id, _, f) =>
        var _, _, task := app.CreateVolume(name, sizeMB, id, f);
        spawned := task;
      case Attach(name, nodeID, f) =>
        var _, task := app.AttachVolume(name, nodeID, f);
        spawned := task;
      case Release(name, kind, f) =>
        if kind == DetachOp {
          var _, task := app.DetachVolume(name, f);
          spawned := task;
        } else {
          var _, task := app.DeleteVolume(name, f);
          spawned := task;
        }
      case Reconcile(name, reachable, f) =>
        var _, _ := app.ReconcileVolume(name, reachable, f);
        spawned := None;
    }

    /** One API call; the goroutine it starts, if any, is at its beginning. */
    method Answer(step: Step)
      requires app.Valid() && Enabled(AsCore(), step) && OnMock(step) && !step.Advance? && !step.Cancel?
      modifies this`workers, this`born, app.repo, app.broker`feed, app.broker.Repr
      ensures app.broker.Announced()
      ensures app.Valid() && fresh(app.repo.Repr - old(app.repo.Repr))
      ensures AsCore() == Next(app.policy.maxAttempts, old(AsCore()), step)
    {
      hide Application.Application.Valid, Application.Application.Now, Next, ResponseTo, Enabled,
        Broker.EventBroker.Announced;
      ghost var before := AsCore();
      var spawned := Invoke(step);
      ghost var w := app.Now();
      CallResponds(app.policy.maxAttempts, before, step, w, spawned);
      born := BirthsAfter(before, step, w);
      if spawned.Some? {
        workers := workers + [Start(spawned.value)];
      }
    }

    method TakeStep(step: Step)
      requires app.Valid() && Enabled(AsCore(), step) && OnMock(step)
      modifies this, app.repo, app.backend, app.backend.Repr, app.broker`feed, app.broker.Repr
      ensures app.broker.Announced()
      ensures app.Valid() && fresh(app.repo.Repr - old(app.repo.Repr))
      ensures fresh(app.backend.Repr - old(app.backend.Repr))
      ensures AsCore() == Next(app.policy.maxAttempts, old(AsCore()), step)
    {
      hide Application.Application.Valid, Application.Application.Now, Work;
      match step
      case Advance(i, choice) =>
        var k := WorkOnce(workers[i], choice);
        workers := workers[i := k];
      case Cancel => cancelled := true;
      case _ => Answer(step);
    }

    /** Calls, stages of workers and cancellation, in any order. */
    method Conduct(steps: seq<Step>)
      requires app.Valid() && IsRun(app.policy.maxAttempts, AsCore(), steps) && AllOnMock(steps)
      modifies this, app.repo, app.backend, app.backend.Repr, app.broker`feed, app.broker.Repr
      ensures app.Valid() && fresh(app.repo.Repr - old(app.repo.Repr))
      ensures fresh(app.backend.Repr - old(app.backend.Repr))
      ensures AsCore() == Run(app.policy.maxAttempts, old(AsCore()), steps)
    {
      hide Application.Application.Valid, Application.Application.Now, Next;
      var i := 0;
      while i < |steps|
        invariant 0 <= i <= |steps|
        invariant app.Valid() && fresh(app.repo.Repr - old(app.repo.Repr))
        invariant fresh(app.backend.Repr - old(app.backend.Repr))
        invariant IsRun(app.policy.maxAttempts, AsCore(), steps[i..])
        invariant Run(app.policy.maxAttempts, AsCore(), steps[i..]) == Run(app.policy.maxAttempts, old(AsCore()), steps)
      {
        assert steps[i..][0] == steps[i] && steps[i..][1..] == steps[i + 1..];
        TakeStep(steps[i]);
        i := i + 1;
      }
    }
  }

  /** A service started on empty stores: whatever fails on its way, its two stores agree. */
  method FromEmpty(policy: Backoff.RetryPolicy, steps: seq<Step>) returns (service: Service)
    requires Backoff.ValidPolicy(policy) && IsRun(policy.maxAttempts, EMPTY, steps) && AllOnMock(steps)
    ensures service.app.Valid() && service.AsCore() == Run(policy.maxAttempts, EMPTY, steps)
    ensures forall name :: Agreement.SameStory(service.app.Now(), name)
  {
    var app := new Application.Application(policy);
    service := new Service(app, map[]);
    service.Conduct(steps);
    forall name ensures Agreement.SameStory(service.app.Now(), name) {
      Agreement.StoresAlwaysAgree(policy.maxAttempts, steps, name);
    }
  }
}
