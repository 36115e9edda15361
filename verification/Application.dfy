/** The application: API calls, applyEvent and the retry loop over the heap, proved against the lifecycle protocol. */
module Application {
  import opened Storage
  import opened Fsm
  import opened Lifecycle
  import opened Repository
  import Mock
  import Broker
  import opened Channel
  import Backoff
  import Retry

  class Application {
    const repo: InMemoryRepository
    const backend: Mock.MockBackend
    const broker: Broker.EventBroker
    const policy: Backoff.RetryPolicy

    ghost predicate Valid()
      reads this, repo, repo.Repr, backend, backend.Repr, broker, broker.Repr, broker.Bufs
    {
      repo.Valid() && backend.Valid() && broker.Valid() && repo.Repr !! backend.Repr && Backoff.ValidPolicy(policy)
    }

    /** The stores, the log and the feed, as one value. */
    ghost function Now(): World
      reads this, repo, repo.Repr, backend, backend.Repr, broker, broker.Repr, broker.Bufs
      requires Valid()
    {
      World(repo.Contents(), backend.Contents(), repo.events, broker.feed)
    }

    /** The object belongs to neither store. */
    ghost predicate Apart(v: VolumeRecord)
      reads repo, backend
    {
      v !in repo.Repr && v !in backend.Repr
    }

    constructor (policy: Backoff.RetryPolicy)
      requires Backoff.ValidPolicy(policy)
      ensures Valid() && Now() == World(map[], map[], [], []) && this.policy == policy
      ensures fresh(repo) && fresh(backend) && fresh(broker)
      ensures repo.Repr == {} && backend.Repr == {} && broker.Repr == {}
    {
      repo := new InMemoryRepository();
      backend := new Mock.MockBackend();
      broker := new Broker.EventBroker();
      this.policy := policy;
    }

    // ----- The database, with its faults -----

    method Load(name: string, works: bool) returns (v: VolumeRecord?)
      requires Valid()
      ensures match Lifecycle.Load(Now(), name, works)
              case Some(found) => v != null && fresh(v) && v.Value() == found && v.name == name
              case None => v == null
    {
      if !works {
        return null;
      }
      v := repo.LoadVolume(name);
    }

    method Update(v: VolumeRecord, fate: Fate) returns (ok: bool)
      requires Valid()
      modifies repo
      ensures Valid() && fresh(repo.Repr - old(repo.Repr))
      ensures Now() == Lifecycle.Update(old(Now()), v.Value(), fate)
      ensures ok == Updated(old(Now()), v.Value(), fate)
    {
      hide Broker.EventBroker.Valid, Mock.MockBackend.Valid, Mock.MockBackend.Contents;
      if fate.Refused? {
        return false;
      }
      var found := repo.UpdateVolume(v);
      ok := found && fate.Stored?;
    }

    /** Inserts a record; a record that exists already is an error. */
    method Save(v: VolumeRecord, fate: Fate) returns (ok: bool)
      requires Valid() && v.name !in Now().db
      modifies repo
      ensures Valid() && fresh(repo.Repr - old(repo.Repr))
      ensures Now() == if fate.Refused? then old(Now()) else old(Now()).(db := old(Now()).db[v.name := v.Value()])
      ensures ok == fate.Stored?
    {
      if fate.Refused? {
        return false;
      }
      var inserted := repo.SaveVolume(v);
      ok := fate.Stored?;
    }

    /** Appends to the audit log; a failure to do so is only logged. */
    method Record(e: Entry, saved: bool)
      requires Valid()
      modifies repo`events
      ensures Valid() && Now() == old(Now()).(log := if saved then old(Now()).log + [e] else old(Now()).log)
    {
      if saved {
        repo.SaveEvent(e);
      }
    }

    method Announce(e: StateEvent)
      requires Valid()
      modifies broker`feed, broker.Repr
      ensures Valid() && Now() == old(Now()).(feed := old(Now()).feed + [e]) && broker.Announced()
    {
      hide InMemoryRepository.Valid, InMemoryRepository.Contents, Mock.MockBackend.Valid, Mock.MockBackend.Contents;
      hide Broker.EventBroker.Valid;
      broker.Publish(e.name, e);
    }

    method ApplyEvent(v: VolumeRecord, event: Event, f: Faults) returns (failure: Option<Failure>)
      requires Valid() && Apart(v)
      modifies v, repo, broker`feed, broker.Repr
      ensures Valid() && Apart(v) && fresh(repo.Repr - old(repo.Repr))
      ensures broker.Announced()
      ensures Outcome(Now(), v.Value(), failure) == Lifecycle.ApplyEvent(old(Now()), old(v.Value()), event, f)
    {
      hide Valid, Now, Transition;
      if !CanTransition(v.state, event) {
        return Some(InvalidTransition);
      }
      var fromState := v.state;
      var newState := Transition(v.state, event).value;
      v.state := newState;
      var ok := Update(v, f.update);
      if !ok {
        return Some(Database);
      }
      Record(Entry(v.id, Applied(event), fromState, newState), f.saved);
      Announce(StateEvent(v.name, newState, event));
      failure := None;
    }

    // ----- API calls -----

    /** The end of every accepted request: apply its event, then start its worker. */
    method Accept(v: VolumeRecord, task: Task, f: Faults) returns (failure: Option<Failure>, spawned: Option<Task>)
      requires Valid() && Apart(v)
      modifies v, repo, broker`feed, broker.Repr
      ensures Valid() && Apart(v) && fresh(repo.Repr - old(repo.Repr)) && broker.Announced()
      ensures Response(Now(), failure, spawned) == Lifecycle.Accept(old(Now()), old(v.Value()), task, f)
      ensures failure.None? ==>
              v.Value() == Lifecycle.ApplyEvent(old(Now()), old(v.Value()), Request(task.kind), f).volume
    {
      hide Valid, Now;
      failure := ApplyEvent(v, Request(task.kind), f);
      spawned := if failure.None? then Some(task) else None;
    }

    /** Saves a new record, then applies the create event to it. */
    method Insert(v: VolumeRecord, f: Faults) returns (failure: Option<Failure>, spawned: Option<Task>)
      requires Valid() && Apart(v) && v.name !in Now().db && v.state == Pending
      modifies v, repo, broker`feed, broker.Repr
      ensures Valid() && Apart(v) && fresh(repo.Repr - old(repo.Repr)) && broker.Announced()
      ensures Response(Now(), failure, spawned) == Lifecycle.Insert(old(Now()), old(v.Value()), f)
      ensures failure.None? ==> v.Value() == old(v.Value()).(state := Creating)
    {
      hide Valid, Now;
      var saved := Save(v, f.write);
      if !saved {
        return Some(Database), None;
      }
      failure, spawned := Accept(v, Task(v.name, CreateOp, v.sizeMB, ""), f);
    }

    /** A new record under a free name, and a copy of it for the caller. */
    method Begin(vol: Volume, f: Faults)
      returns (created: VolumeRecord?, failure: Option<Failure>, spawned: Option<Task>)
      requires Valid() && vol.name !in Now().db && vol.state == Pending
      modifies repo, broker`feed, broker.Repr
      ensures Valid() && fresh(repo.Repr - old(repo.Repr)) && broker.Announced()
      ensures Response(Now(), failure, spawned) == Lifecycle.Insert(old(Now()), vol, f)
      ensures failure.None? ==> created != null && fresh(created) && created.Value() == vol.(state := Creating)
    {
      hide Valid, Now, Lifecycle.Insert;
      var v := new VolumeRecord(vol);
      assert Now() == old(Now());
      failure, spawned := Insert(v, f);
      created := null;
      if failure.None? {
        created := v.Copy();
      }
    }

    method CreateVolume(name: string, sizeMB: int, id: string, f: Faults)
      returns (created: VolumeRecord?, failure: Option<Failure>, spawned: Option<Task>)
      requires Valid()
      modifies repo, broker`feed, broker.Repr
      ensures Valid() && fresh(repo.Repr - old(repo.Repr)) && broker.Announced()
      ensures Response(Now(), failure, spawned) == Lifecycle.CreateVolume(old(Now()), name, sizeMB, id, "mock", f)
      ensures failure.None? ==> created != null && fresh(created)
      ensures failure.None? ==> created.Value() == Volume(id, name, sizeMB, Creating, "mock", "")
    {
      hide Valid, Now, Lifecycle.Insert, Lifecycle.ApplyEvent;
      if sizeMB <= 0 {
        return null, Some(InvalidSize), None;
      }
      if !f.load {
        return null, Some(Database), None;
      }
      var existing := Load(name, f.load);
      if existing != null {
        return null, Some(VolumeExists), None;
      }
      created, failure, spawned := Begin(Volume(id, name, sizeMB, Pending, "mock", ""), f);
    }

    method AttachVolume(name: string, nodeID: string, f: Faults)
      returns (failure: Option<Failure>, spawned: Option<Task>)
      requires Valid()
      modifies repo, broker`feed, broker.Repr
      ensures Valid() && fresh(repo.Repr - old(repo.Repr)) && broker.Announced()
      ensures Response(Now(), failure, spawned) == Lifecycle.AttachVolume(old(Now()), name, nodeID, f)
    {
      hide Valid, Now, Lifecycle.Accept;
      spawned := None;
      var v := Load(name, f.load);
      if v == null {
        return Some(LoadFailure(f.load)), None;
      }
      v.nodeID := nodeID;
      assert Now() == old(Now());
      var ok := Update(v, f.write);
      if !ok {
        return Some(Database), None;
      }
      failure, spawned := Accept(v, Task(name, AttachOp, v.sizeMB, nodeID), f);
    }

    method DetachVolume(name: string, f: Faults) returns (failure: Option<Failure>, spawned: Option<Task>)
      requires Valid()
      modifies repo, broker`feed, broker.Repr
      ensures Valid() && fresh(repo.Repr - old(repo.Repr)) && broker.Announced()
      ensures Response(Now(), failure, spawned) == ReleaseVolume(old(Now()), name, DetachOp, f)
    {
      failure, spawned := Release(name, DetachOp, f);
    }

    method DeleteVolume(name: string, f: Faults) returns (failure: Option<Failure>, spawned: Option<Task>)
      requires Valid()
      modifies repo, broker`feed, broker.Repr
      ensures Valid() && fresh(repo.Repr - old(repo.Repr)) && broker.Announced()
      ensures Response(Now(), failure, spawned) == ReleaseVolume(old(Now()), name, DeleteOp, f)
    {
      failure, spawned := Release(name, DeleteOp, f);
    }

    method Release(name: string, kind: Kind, f: Faults) returns (failure: Option<Failure>, spawned: Option<Task>)
      requires Valid()
      modifies repo, broker`feed, broker.Repr
      ensures Valid() && fresh(repo.Repr - old(repo.Repr)) && broker.Announced()
      ensures Response(Now(), failure, spawned) == ReleaseVolume(old(Now()), name, kind, f)
    {
      hide Valid, Now;
      spawned := None;
      var v := Load(name, f.load);
      if v == null {
        return Some(LoadFailure(f.load)), None;
      }
      failure, spawned := Accept(v, Task(name, kind, v.sizeMB, ""), f);
    }

    /** Derives the record's state and node from what the backend holds under its name. */
    method Realign(v: VolumeRecord)
      requires Valid() && Apart(v)
      modifies v
      ensures v.Value() == Lifecycle.Realign(old(v.Value()), Held(old(Now()), old(v.name)))
    {
      var actual := backend.GetVolume(v.name);
      if actual == null {
        v.state, v.nodeID := Pending, "";
      } else if actual.nodeID != "" {
        v.state, v.nodeID := Attached, actual.nodeID;
      } else {
        v.state, v.nodeID := Available, "";
      }
    }

    /** Persists a repaired record and its audit entry. */
    method PersistRepair(v: VolumeRecord, fromState: State, f: Faults)
      returns (result: VolumeRecord?, failure: Option<Failure>)
      requires Valid()
      modifies repo
      ensures Valid() && fresh(repo.Repr - old(repo.Repr))
      ensures Response(Now(), failure, None) == Lifecycle.PersistRepair(old(Now()), v.Value(), fromState, f)
      ensures failure.None? ==> result != null && fresh(result) && result.Value() == v.Value()
    {
      hide Valid, Now;
      var ok := Update(v, f.update);
      if !ok {
        return null, Some(Database);
      }
      Record(Entry(v.id, Reconciled, fromState, v.state), f.saved);
      result := v.Copy();
      failure := None;
    }

    /** A backend that answers reports an absent volume as such, not as an error. */
    method ReconcileVolume(name: string, reachable: bool, f: Faults)
      returns (result: VolumeRecord?, failure: Option<Failure>)
      requires Valid()
      modifies repo
      ensures Valid() && fresh(repo.Repr - old(repo.Repr))
      ensures Response(Now(), failure, None) == Lifecycle.ReconcileVolume(old(Now()), name, reachable, f)
      ensures failure.None? ==> result != null && fresh(result)
      ensures failure.None? ==> result.Value() == Lifecycle.Realign(old(Now()).db[name], Held(old(Now()), name))
    {
      hide Valid, Now;
      var v := Load(name, f.load);
      if v == null {
        return null, Some(LoadFailure(f.load));
      }
      if v.state != Error {
        return null, Some(InvalidTransition);
      }
      if !reachable {
        return null, Some(BackendUnavailable);
      }
      assert Now() == old(Now());
      var fromState := v.state;
      Realign(v);
      assert Now() == old(Now());
      result, failure := PersistRepair(v, fromState, f);
    }

    // ----- Subscriptions -----

    /** A channel of the caller's own, if the volume is found. */
    method Subscribe(name: string, works: bool) returns (ch: Broker.EventChannel?)
      requires Valid()
      modifies broker`subscribers, broker`lists, broker`Repr, broker`Bufs, broker.Bufs
      ensures Valid() && Now() == old(Now()) && fresh(broker.Bufs - old(broker.Bufs))
      ensures match Lifecycle.Load(old(Now()), name, works)
              case None => ch == null && broker.Repr == old(broker.Repr) && broker.lists == old(broker.lists)
              case Some(_) =>
                && ch != null && fresh(ch) && ch.chan == NEW_CHAN && ch.name == name
                && broker.Repr == old(broker.Repr) + {ch}
                && broker.lists == old(broker.lists)[name := old(broker.Subscribers(name)) + [ch]]
    {
      hide InMemoryRepository.Valid, InMemoryRepository.Contents, Mock.MockBackend.Valid, Mock.MockBackend.Contents;
      hide Broker.EventBroker.Valid, Broker.EventBroker.Subscribers;
      var v := Load(name, works);
      ch := null;
      if v != null {
        ch := broker.Subscribe(name);
      }
    }

    /** The channel is closed, and all others stay registered as they were. */
    method Unsubscribe(name: string, ch: Broker.EventChannel)
      requires Valid() && ch in broker.Subscribers(name)
      modifies broker`subscribers, broker`lists, broker`Repr, broker.Bufs, ch`closed
      ensures Valid() && Now() == old(Now()) && broker.Bufs == old(broker.Bufs)
      ensures ch.closed && broker.Repr == old(broker.Repr) - {ch}
      ensures broker.Subscribers(name) == Broker.Without(old(broker.Subscribers(name)), ch)
      ensures forall n | n != name :: broker.Subscribers(n) == old(broker.Subscribers(n))
    {
      broker.Unsubscribe(name, ch);
    }

    // ----- The retry loop -----

    /** The backend call of a task; the reply says whether it arrives and whether its answer does. */
    method CallBackend(task: Task, reply: Reply, uuid: string) returns (ok: bool)
      requires Valid()
      modifies backend, backend.Repr
      ensures Valid() && fresh(backend.Repr - old(backend.Repr))
      ensures (Now(), ok) == Call(old(Now()), task, reply, uuid)
    {
      hide Valid, Now;
      if reply.Unreached? {
        return false;
      }
      var served := Perform(task, uuid);
      ok := served && reply.Truthful?;
    }

    method Perform(task: Task, uuid: string) returns (ok: bool)
      requires Valid()
      modifies backend, backend.Repr
      ensures Valid() && fresh(backend.Repr - old(backend.Repr))
      ensures (Now(), ok) == Call(old(Now()), task, Truthful, uuid)
    {
      hide InMemoryRepository.Valid, InMemoryRepository.Contents, Broker.EventBroker.Valid;
      hide Mock.MockBackend.Valid, Mock.MockBackend.Contents;
      match task.kind
      case CreateOp =>
        ServeDependsOn(backend.Contents(), task, Task(task.name, CreateOp, task.sizeMB, ""), uuid, uuid);
        var created := backend.CreateVolume(task.name, task.sizeMB, uuid);
        ok := created != null;
      case AttachOp =>
        ServeDependsOn(backend.Contents(), task, Task(task.name, AttachOp, 0, task.nodeID), uuid, "");
        ok := backend.AttachVolume(task.name, task.nodeID);
      case DetachOp =>
        ServeDependsOn(backend.Contents(), task, Task(task.name, DetachOp, 0, ""), uuid, "");
        ok := backend.DetachVolume(task.name);
      case DeleteOp =>
        ServeDependsOn(backend.Contents(), task, Task(task.name, DeleteOp, 0, ""), uuid, "");
        ok := backend.DeleteVolume(task.name);
    }

    /** Reloads the record and applies an event to it, after the success mutation if one is given. */
    method ReloadAndApply(name: string, event: Event, post: Option<Kind>, f: Faults) returns (loaded: bool, ok: bool)
      requires Valid()
      modifies repo, broker`feed, broker.Repr
      ensures Valid() && fresh(repo.Repr - old(repo.Repr))
      ensures broker.Announced()
      ensures match Lifecycle.Load(old(Now()), name, f.load)
              case None => !loaded && !ok && Now() == old(Now())
              case Some(v) =>
                var v' := if post.Some? then PostSuccess(v, post.value) else v;
                var o := Lifecycle.ApplyEvent(old(Now()), v', event, f);
                loaded && Now() == o.world && ok == o.failure.None?
    {
      hide Valid, Now, Lifecycle.ApplyEvent;
      var v := Load(name, f.load);
      if v == null {
        return false, false;
      }
      if post == Some(DetachOp) {
        v.nodeID := "";
      }
      assert Now() == old(Now());
      var failure := ApplyEvent(v, event, f);
      loaded, ok := true, failure.None?;
    }

    /** The run of a task's worker that began in `start` has reached a stage, and this is its world. */
    ghost predicate Reached(start: World, task: Task, script: Retry.Script, t: nat, pc: Pc, attempt: nat)
      reads this, repo, repo.Repr, backend, backend.Repr, broker, broker.Repr, broker.Bufs
      requires Valid()
    {
      Retry.Stages(policy.maxAttempts, start, Start(task), script, t) == (Now(), Worker(task, pc, attempt))
    }

    /** How often that worker has waited to the end so far. */
    ghost function Waited(start: World, task: Task, script: Retry.Script, t: nat): nat {
      Retry.Waits(policy.maxAttempts, start, Start(task), script, t)
    }

    /** The backend call, and what it reports. */
    method MakeCall(ghost start: World, task: Task, script: Retry.Script, t: nat, ghost attempt: nat) returns (ok: bool)
      requires Valid() && Reached(start, task, script, t, Calling, attempt)
      modifies backend, backend.Repr
      ensures Valid() && fresh(backend.Repr - old(backend.Repr))
      ensures Reached(start, task, script, t + 1, if ok then Succeeded else Failed, attempt)
    {
      hide Valid, Now;
      ok := CallBackend(task, script(t).reply, script(t).uuid);
    }

    /** The event of a success, after the success mutation. */
    method ReportSuccess(ghost start: World, task: Task, script: Retry.Script, t: nat, ghost attempt: nat)
      requires Valid() && Reached(start, task, script, t, Succeeded, attempt)
      modifies repo, broker`feed, broker.Repr
      ensures Valid() && fresh(repo.Repr - old(repo.Repr))
      ensures Reached(start, task, script, t + 1, Done, attempt)
    {
      hide Valid, Now, Lifecycle.ApplyEvent;
      var _, _ := ReloadAndApply(task.name, Success(task.kind), Some(task.kind), script(t).faults);
    }

    /** The event of an error; without it the worker ends. */
    method ReportError(ghost start: World, task: Task, script: Retry.Script, t: nat, ghost attempt: nat)
      returns (failed: bool)
      requires Valid() && Reached(start, task, script, t, Failed, attempt)
      modifies repo, broker`feed, broker.Repr
      ensures Valid() && fresh(repo.Repr - old(repo.Repr))
      ensures Reached(start, task, script, t + 1,
                      if !failed then Done else if attempt == policy.maxAttempts then Exhausted else Waiting, attempt)
    {
      hide Valid, Now, Lifecycle.ApplyEvent;
      var loaded, applied := ReloadAndApply(task.name, EventError, None, script(t).faults);
      failed := loaded && applied;
    }

    /** The call, and the event for a success or an error. */
    method CallAndReport(ghost start: World, task: Task, script: Retry.Script, t: nat, ghost attempt: nat)
      returns (failed: bool)
      requires Valid() && Reached(start, task, script, t, Calling, attempt)
      modifies repo, backend, backend.Repr, broker`feed, broker.Repr
      ensures Valid() && fresh(repo.Repr - old(repo.Repr)) && fresh(backend.Repr - old(backend.Repr))
      ensures Reached(start, task, script, t + 2,
                      if !failed then Done else if attempt == policy.maxAttempts then Exhausted else Waiting, attempt)
      ensures Waited(start, task, script, t + 2) == Waited(start, task, script, t)
    {
      hide Valid, Now, Retry.Waits, Retry.Stages;
      failed := false;
      Retry.NoWait(policy.maxAttempts, start, Start(task), script, t);
      var ok := MakeCall(start, task, script, t, attempt);
      Retry.NoWait(policy.maxAttempts, start, Start(task), script, t + 1);
      if ok {
        ReportSuccess(start, task, script, t + 1, attempt);
      } else {
        failed := ReportError(start, task, script, t + 1, attempt);
      }
    }

    /** The first half of an attempt: the cancellation check, the call, and the event for a success or an error. */
    method TryOnce(ghost start: World, task: Task, script: Retry.Script, t: nat, attempt: nat)
      returns (t': nat, failed: bool)
      requires Valid() && Reached(start, task, script, t, Check, attempt)
      modifies repo, backend, backend.Repr, broker`feed, broker.Repr
      ensures Valid() && fresh(repo.Repr - old(repo.Repr)) && fresh(backend.Repr - old(backend.Repr))
      ensures Reached(start, task, script, t',
                      if !failed then Done else if attempt == policy.maxAttempts then Exhausted else Waiting, attempt)
      ensures Waited(start, task, script, t') == Waited(start, task, script, t)
    {
      hide Valid, Now, Lifecycle.ApplyEvent, Lifecycle.Call, Retry.Waits;
      t', failed := t + 1, false;
      Retry.NoWait(policy.maxAttempts, start, Start(task), script, t);
      if script(t).stop {
        return;
      }
      assert Reached(start, task, script, t + 1, Calling, attempt);
      hide Retry.Stages;
      failed := CallAndReport(start, task, script, t + 1, attempt);
      t' := t + 3;
    }

    /** The last error of the last attempt leads to the error state. */
    method GiveUp(ghost start: World, task: Task, script: Retry.Script, t: nat, ghost attempt: nat)
      requires Valid() && Reached(start, task, script, t, Exhausted, attempt)
      modifies repo, broker`feed, broker.Repr
      ensures Valid() && fresh(repo.Repr - old(repo.Repr))
      ensures Reached(start, task, script, t + 1, Done, attempt)
      ensures Waited(start, task, script, t + 1) == Waited(start, task, script, t)
    {
      hide Valid, Now, Lifecycle.ApplyEvent;
      Retry.NoWait(policy.maxAttempts, start, Start(task), script, t);
      var _, _ := ReloadAndApply(task.name, EventFail, None, script(t).faults);
    }

    /** From the failed state back to work; a failed reload skips the event and goes on. */
    method BackToWork(ghost start: World, task: Task, script: Retry.Script, t: nat, ghost attempt: nat)
      returns (again: bool)
      requires Valid() && Reached(start, task, script, t, Retrying, attempt)
      modifies repo, broker`feed, broker.Repr
      ensures Valid() && fresh(repo.Repr - old(repo.Repr))
      ensures Reached(start, task, script, t + 1, if again then Check else Done, if again then attempt + 1 else attempt)
    {
      hide Valid, Now, Lifecycle.ApplyEvent;
      var loaded, applied := ReloadAndApply(task.name, EventRetry, None, script(t).faults);
      again := !loaded || applied;
    }

    /** The wait after a failed attempt, unless the shutdown ends it, and the way back to work. */
    method WaitAndGoBack(ghost start: World, task: Task, script: Retry.Script, t: nat, ghost attempt: nat)
      returns (t': nat, waited: bool, again: bool)
      requires Valid() && Reached(start, task, script, t, Waiting, attempt)
      modifies repo, broker`feed, broker.Repr
      ensures Valid() && fresh(repo.Repr - old(repo.Repr))
      ensures Reached(start, task, script, t', if again then Check else Done, if again then attempt + 1 else attempt)
      ensures again ==> waited
      ensures Waited(start, task, script, t') == Waited(start, task, script, t) + if waited then 1 else 0
    {
      hide Valid, Now, Lifecycle.ApplyEvent, Lifecycle.Call;
      t', waited, again := t + 1, !script(t).stop, false;
      assert Reached(start, task, script, t + 1, if waited then Retrying else Done, attempt);
      if waited {
        Retry.NoWait(policy.maxAttempts, start, Start(task), script, t + 1);
        again := BackToWork(start, task, script, t + 1, attempt);
        t' := t + 2;
      }
    }

    /** The loop body: one attempt, and the wait after it if there is to be another one. */
    method Attempt(ghost start: World, task: Task, script: Retry.Script, t: nat, attempt: nat)
      returns (t': nat, waited: bool, again: bool)
      requires Valid() && Reached(start, task, script, t, Check, attempt) && attempt <= policy.maxAttempts
      modifies repo, backend, backend.Repr, broker`feed, broker.Repr
      ensures Valid() && fresh(repo.Repr - old(repo.Repr)) && fresh(backend.Repr - old(backend.Repr))
      ensures Reached(start, task, script, t', if again then Check else Done, if again then attempt + 1 else attempt)
      ensures (again ==> waited) && (waited ==> attempt < policy.maxAttempts)
      ensures Waited(start, task, script, t') == Waited(start, task, script, t) + if waited then 1 else 0
    {
      hide Valid, Now, Waited, Retry.Stages;
      waited, again := false, false;
      var failed;
      t', failed := TryOnce(start, task, script, t, attempt);
      if failed && attempt == policy.maxAttempts {
        GiveUp(start, task, script, t', attempt);
        t' := t' + 1;
      } else if failed {
        t', waited, again := WaitAndGoBack(start, task, script, t', attempt);
      }
    }

    lemma PolicyIsValid()
      requires Valid()
      ensures Backoff.ValidPolicy(policy)
    {
    }

    /**
     The retry loop.  It performs exactly the stages of the lifecycle's worker, in order,
     until that worker is done, and sleeps for the waits of the back-off in between.
     */
    method RunWithRetry(task: Task, script: Retry.Script) returns (stages: nat, attempt: nat, slept: seq<nat>)
      requires Valid()
      modifies repo, backend, backend.Repr, broker`feed, broker.Repr
      ensures Valid() && fresh(repo.Repr - old(repo.Repr)) && fresh(backend.Repr - old(backend.Repr))
      ensures Reached(old(Now()), task, script, stages, Done, attempt)
      ensures |slept| < policy.maxAttempts && Backoff.AsPlanned(policy, slept)
      ensures |slept| == Waited(old(Now()), task, script, stages)
    {
      PolicyIsValid();
      hide Valid, Now;
      ghost var start := Now();
      assert Reached(start, task, script, 0, Check, 1) && Waited(start, task, script, 0) == 0;
      hide Waited, Retry.Stages;
      var wait := policy.initialWait;
      stages, attempt, slept := 0, 1, [];
      var again := true;
      while again
        invariant Valid() && fresh(repo.Repr - old(repo.Repr)) && fresh(backend.Repr - old(backend.Repr))
        invariant Reached(start, task, script, stages, if again then Check else Done, attempt)
        invariant 1 <= attempt && (again ==> attempt <= policy.maxAttempts)
        invariant wait == Backoff.Wait(policy, attempt)
        invariant if again then |slept| == attempt - 1 else |slept| < policy.maxAttempts
        invariant Backoff.AsPlanned(policy, slept) && |slept| == Waited(start, task, script, stages)
        decreases again, policy.maxAttempts - attempt
      {
        var waited;
        stages, waited, again := Attempt(start, task, script, stages, attempt);
        if waited {
          slept := slept + [wait];
        }
        if again {
          wait := Backoff.NextWait(policy, wait);
          attempt := attempt + 1;
        }
      }
    }
  }
}
