/**
 The lifecycle protocol on values: what one API call's synchronous part and one
 stage of a retry worker do to the two stores, the audit log and the feed of
 published events.  The classes are proved against these functions, and the
 step relation over the whole system is built from them.
 */
module Lifecycle {
  import opened Storage
  import opened Fsm

  /** What an audit entry records: an FSM event, or a repair outside the FSM. */
  datatype Label = Applied(event: Event) | Reconciled

  datatype Entry = Entry(volumeID: string, cause: Label, fromState: State, toState: State)

  /** What subscribers are told about one transition. */
  datatype StateEvent = StateEvent(name: string, state: State, event: Event)

  /** The stored state: DB records, backend volumes, audit log, and every event published so far. */
  datatype World = World(
    db: map<string, Volume>, backend: map<string, Volume>, log: seq<Entry>, feed: seq<StateEvent>)

  // ----- Faults -----

  /** The fate of a DB write: done, not done, or done although the caller is told it failed. */
  datatype Fate = Stored | Refused | Unacknowledged

  /** What goes wrong with the DB during one API call or one worker stage. */
  datatype Faults = Faults(load: bool, write: Fate, update: Fate, saved: bool)

  const NO_FAULTS := Faults(true, Stored, Stored, true)

  datatype Failure =
    | InvalidSize
    | VolumeExists
    | VolumeNotFound
    | InvalidTransition
    | BackendUnavailable
    | Database

  // ----- applyEvent -----

  datatype Outcome = Outcome(world: World, volume: Volume, failure: Option<Failure>)

  /** Writes a whole record under its name; a missing row is an error. */
  function Update(w: World, v: Volume, fate: Fate): World {
    if v.name !in w.db || fate.Refused? then w else w.(db := w.db[v.name := v])
  }

  predicate Updated(w: World, v: Volume, fate: Fate) {
    v.name in w.db && fate.Stored?
  }

  /** Guard, transition, persist, append to the audit log, publish. */
  function ApplyEvent(w: World, v: Volume, event: Event, f: Faults): Outcome {
    match Transition(v.state, event)
    case None => Outcome(w, v, Some(InvalidTransition))
    case Some(next) =>
      var moved := v.(state := next);
      var w' := Update(w, moved, f.update);
      if !Updated(w, moved, f.update) then Outcome(w', moved, Some(Database))
      else
        var log := if f.saved then w.log + [Entry(v.id, Applied(event), v.state, next)] else w.log;
        Outcome(w'.(log := log, feed := w.feed + [StateEvent(v.name, next, event)]), moved, None)
  }

  // ----- API calls: their synchronous part -----

  /** What a worker's closure captured when its request was accepted. */
  datatype Task = Task(name: string, kind: Kind, sizeMB: int, nodeID: string)

  datatype Response = Response(world: World, failure: Option<Failure>, spawned: Option<Task>)

  /** A DB read: the record, or None for a read that failed or found nothing. */
  function Load(w: World, name: string, works: bool): Option<Volume> {
    if works && name in w.db then Some(w.db[name]) else None
  }

  function LoadFailure(works: bool): Failure {
    if works then VolumeNotFound else Database
  }

  /** Applies the request's event and starts a worker when it is accepted. */
  function Accept(w: World, v: Volume, task: Task, f: Faults): Response {
    var o := ApplyEvent(w, v, Request(task.kind), f);
    Response(o.world, o.failure, if o.failure.None? then Some(task) else None)
  }

  /** Saves a pending record, then applies the create event to it. */
  function Insert(w: World, v: Volume, f: Faults): Response {
    var saved := if f.write.Refused? then w else w.(db := w.db[v.name := v]);
    if !f.write.Stored? then Response(saved, Some(Database), None)
    else Accept(saved, v, Task(v.name, CreateOp, v.sizeMB, ""), f)
  }

  function CreateVolume(w: World, name: string, sizeMB: int, id: string, backend: string, f: Faults): Response {
    if sizeMB <= 0 then Response(w, Some(InvalidSize), None)
    else if !f.load then Response(w, Some(Database), None)
    else if name in w.db then Response(w, Some(VolumeExists), None)
    else
      Insert(w, Volume(id, name, sizeMB, Pending, backend, ""), f)
  }

  /** Writes the node before the guard is evaluated. */
  function AttachVolume(w: World, name: string, nodeID: string, f: Faults): Response {
    match Load(w, name, f.load)
    case None => Response(w, Some(LoadFailure(f.load)), None)
    case Some(found) =>
      var v := found.(nodeID := nodeID);
      var w' := Update(w, v, f.write);
      if !Updated(w, v, f.write) then Response(w', Some(Database), None)
      else Accept(w', v, Task(name, AttachOp, v.sizeMB, nodeID), f)
  }

  /** DetachVolume and DeleteVolume: load, then apply the request's event. */
  function ReleaseVolume(w: World, name: string, kind: Kind, f: Faults): Response {
    match Load(w, name, f.load)
    case None => Response(w, Some(LoadFailure(f.load)), None)
    case Some(v) => Accept(w, v, Task(name, kind, v.sizeMB, ""), f)
  }

  /** The record that reconciliation derives from what the backend holds. */
  function Realign(v: Volume, held: Option<Volume>): Volume {
    match held
    case None => v.(state := Pending, nodeID := "")
    case Some(actual) =>
      if actual.nodeID != "" then v.(state := Attached, nodeID := actual.nodeID)
      else v.(state := Available, nodeID := "")
  }

  function Held(w: World, name: string): Option<Volume> {
    if name in w.backend then Some(w.backend[name]) else None
  }

  /** Writes a repaired record and its audit entry; subscribers are not told. */
  function PersistRepair(w: World, v: Volume, fromState: State, f: Faults): Response {
    var w' := Update(w, v, f.update);
    if !Updated(w, v, f.update) then Response(w', Some(Database), None)
    else
      var log := if f.saved then w.log + [Entry(v.id, Reconciled, fromState, v.state)] else w.log;
      Response(w'.(log := log), None, None)
  }

  /** `reachable` says whether the backend answers the query at all. */
  function ReconcileVolume(w: World, name: string, reachable: bool, f: Faults): Response {
    match Load(w, name, f.load)
    case None => Response(w, Some(LoadFailure(f.load)), None)
    case Some(v) =>
      if v.state != Error then Response(w, Some(InvalidTransition), None)
      else if !reachable then Response(w, Some(BackendUnavailable), None)
      else
        PersistRepair(w, Realign(v, Held(w, name)), v.state, f)
  }

  // ----- The backend -----

  /** What the backend does with a task's call: the volumes it holds afterwards, or None for an error. */
  function Serve(held: map<string, Volume>, task: Task, uuid: string): Option<map<string, Volume>> {
    match task.kind
    case CreateOp =>
      if task.sizeMB <= 0 || task.name in held then None
      else Some(held[task.name := Volume(uuid, task.name, task.sizeMB, Available, "mock", "")])
    case AttachOp =>
      if task.name !in held || held[task.name].state != Available then None
      else Some(held[task.name := held[task.name].(nodeID := task.nodeID, state := Attached)])
    case DetachOp =>
      if task.name !in held || held[task.name].state != Attached then None
      else Some(held[task.name := held[task.name].(nodeID := "", state := Available)])
    case DeleteOp =>
      if task.name !in held || held[task.name].state == Attached then None
      else Some(held - {task.name})
  }

  /** A call depends on no more of its task than it passes on. */
  lemma ServeDependsOn(held: map<string, Volume>, a: Task, b: Task, uuidA: string, uuidB: string)
    requires a.name == b.name && a.kind == b.kind
    requires a.kind.CreateOp? ==> a.sizeMB == b.sizeMB && uuidA == uuidB
    requires a.kind.AttachOp? ==> a.nodeID == b.nodeID
    ensures Serve(held, a, uuidA) == Serve(held, b, uuidB)
  {
  }

  /** How a backend call comes back: as served; lost on the way; or served but reported as failed. */
  datatype Reply = Truthful | Unreached | Unreported

  function Call(w: World, task: Task, reply: Reply, uuid: string): (World, bool) {
    var served := Serve(w.backend, task, uuid);
    if reply.Unreached? || served.None? then (w, false)
    else (w.(backend := served.value), reply.Truthful?)
  }

  // ----- The retry worker -----

  /** The stage a worker has reached within its current attempt. */
  datatype Pc = Check | Calling | Succeeded | Failed | Exhausted | Waiting | Retrying | Done

  datatype Worker = Worker(task: Task, pc: Pc, attempt: nat)

  /** What the environment decides at one stage. */
  datatype Choice = Choice(stop: bool, reply: Reply, uuid: string, faults: Faults)

  /** A stage at which nothing goes wrong, and one whose backend call does not arrive. */
  const SERVED := Choice(false, Truthful, "b", NO_FAULTS)
  const UNREACHED := Choice(false, Unreached, "", NO_FAULTS)

  function Start(task: Task): Worker {
    Worker(task, Check, 1)
  }

  /** Detach clears the node before its success event is persisted. */
  function PostSuccess(v: Volume, kind: Kind): Volume {
    if kind.DetachOp? then v.(nodeID := "") else v
  }

  /** One stage of runWithRetry. */
  function Work(max: nat, w: World, k: Worker, c: Choice): (World, Worker) {
    var exit := k.(pc := Done);
    var loaded := Load(w, k.task.name, c.faults.load);
    match k.pc
    case Check => (w, if c.stop then exit else k.(pc := Calling))
    case Calling =>
      var (w', ok) := Call(w, k.task, c.reply, c.uuid);
      (w', k.(pc := if ok then Succeeded else Failed))
    case Succeeded =>
      if loaded.None? then (w, exit)
      else (ApplyEvent(w, PostSuccess(loaded.value, k.task.kind), Success(k.task.kind), c.faults).world, exit)
    case Failed =>
      if loaded.None? then (w, exit)
      else
        var o := ApplyEvent(w, loaded.value, EventError, c.faults);
        (o.world, if o.failure.Some? then exit else k.(pc := if k.attempt == max then Exhausted else Waiting))
    case Exhausted =>
      if loaded.None? then (w, exit) else (ApplyEvent(w, loaded.value, EventFail, c.faults).world, exit)
    case Waiting => (w, if c.stop then exit else k.(pc := Retrying))
    case Retrying =>
      var again := k.(pc := Check, attempt := k.attempt + 1);
      if loaded.None? then (w, again)
      else
        var o := ApplyEvent(w, loaded.value, EventRetry, c.faults);
        (o.world, if o.failure.Some? then exit else again)
    case Done => (w, k)
  }
}
