/**
 The step relation over the whole protocol: API calls and retry workers, for any
 number of volumes, in any interleaving.  The synchronous part of an API call is
 one step; each stage of a worker is one step, with the backend call and the
 later DB event apart.
 */
module Engine {
  import opened Storage
  import opened Fsm
  import opened Lifecycle

  /**
   `born` records the state in which each volume ID was inserted; `workers` holds
   every goroutine ever started, finished ones included.
   */
  datatype Core = Core(world: World, born: map<string, State>, workers: seq<Worker>, cancelled: bool)

  datatype Step =
    | Create(name: string, sizeMB: int, id: string, backend: string, faults: Faults)
    | Attach(name: string, nodeID: string, faults: Faults)
    | Release(name: string, kind: Kind, faults: Faults)
    | Reconcile(name: string, reachable: bool, faults: Faults)
    | Advance(worker: nat, choice: Choice)
    | Cancel

  predicate Live(c: Core, i: int) {
    0 <= i < |c.workers| && !c.workers[i].pc.Done?
  }

  /**
   New IDs are fresh; the HTTP layer rejects an empty node; a worker sees the
   context cancelled only when it is, and then always before an attempt.
   */
  predicate Enabled(c: Core, step: Step) {
    match step
    case Create(_, _, id, _, _) => id !in c.born
    case Attach(_, nodeID, _) => nodeID != ""
    case Release(_, kind, _) => kind.DetachOp? || kind.DeleteOp?
    case Reconcile(_, _, _) => true
    case Advance(i, choice) =>
      && Live(c, i)
      && (choice.stop ==> c.cancelled)
      && (c.workers[i].pc.Check? ==> choice.stop == c.cancelled)
    case Cancel => true
  }

  /** What goes wrong with the database at a step. */
  function FaultsOf(step: Step): Faults
    requires !step.Cancel?
  {
    if step.Advance? then step.choice.faults else step.faults
  }

  /** What a call's synchronous part does and answers. */
  function ResponseTo(c: Core, step: Step): Response
    requires !step.Advance? && !step.Cancel?
  {
    match step
    case Create(name, sizeMB, id, backend, f) => Lifecycle.CreateVolume(c.world, name, sizeMB, id, backend, f)
    case Attach(name, nodeID, f) => Lifecycle.AttachVolume(c.world, name, nodeID, f)
    case Release(name, kind, f) => Lifecycle.ReleaseVolume(c.world, name, kind, f)
    case Reconcile(name, reachable, f) => Lifecycle.ReconcileVolume(c.world, name, reachable, f)
  }

  function Respond(c: Core, r: Response): Core {
    c.(world := r.world,
       workers := if r.spawned.Some? then c.workers + [Start(r.spawned.value)] else c.workers)
  }

  function Next(max: nat, c: Core, step: Step): Core
    requires Enabled(c, step)
  {
    match step
    case Create(name, sizeMB, id, backend, f) =>
      var r := Lifecycle.CreateVolume(c.world, name, sizeMB, id, backend, f);
      var inserted := name !in c.world.db && name in r.world.db;
      Respond(c, r).(born := if inserted then c.born[id := Pending] else c.born)
    case Attach(name, nodeID, f) => Respond(c, Lifecycle.AttachVolume(c.world, name, nodeID, f))
    case Release(name, kind, f) => Respond(c, Lifecycle.ReleaseVolume(c.world, name, kind, f))
    case Reconcile(name, reachable, f) => Respond(c, Lifecycle.ReconcileVolume(c.world, name, reachable, f))
    case Advance(i, choice) =>
      var (w, k) := Work(max, c.world, c.workers[i], choice);
      c.(world := w, workers := c.workers[i := k])
    case Cancel => c.(cancelled := true)
  }

  /** The steps can be taken one after the other. */
  ghost predicate IsRun(max: nat, c: Core, steps: seq<Step>)
    decreases |steps|
  {
    steps == [] || (Enabled(c, steps[0]) && IsRun(max, Next(max, c, steps[0]), steps[1..]))
  }

  ghost function Run(max: nat, c: Core, steps: seq<Step>): Core
    requires IsRun(max, c, steps)
    decreases |steps|
  {
    if steps == [] then c else Run(max, Next(max, c, steps[0]), steps[1..])
  }

  const EMPTY_WORLD := World(map[], map[], [], [])

  /** A system that has just started on empty stores. */
  const EMPTY := Core(EMPTY_WORLD, map[], [], false)
}
