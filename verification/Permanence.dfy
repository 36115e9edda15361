/**
 What can never change once it is so: a deleted volume stays deleted, and a volume
 that rests in pending stays pending, because no API call applies the create event
 to an existing record.
 */
module Permanence {
  import opened Storage
  import opened Fsm
  import opened Lifecycle
  import opened Engine
  import opened Filing
  import opened Agreement
  import Exact

  predicate DeadEnd(s: State) {
    s == Deleted || s == Pending
  }

  /** Calls find nothing to do on such a record, except that an attach overwrites its node. */
  lemma CallLeavesDeadEnds(c: Core, step: Step)
    requires Enabled(c, step) && !step.Cancel? && !step.Advance?
    requires step.name in c.world.db && c.world.db[step.name].name == step.name && DeadEnd(c.world.db[step.name].state)
    ensures var w' := Next(0, c, step).world;
            && step.name in w'.db
            && w'.db[step.name].state == c.world.db[step.name].state
            && w'.db[step.name].id == c.world.db[step.name].id
  {
  }

  lemma StepLeavesDeadEnds(max: nat, c: Core, step: Step, name: string)
    requires max >= 1 && Inv(max, c) && Enabled(c, step)
    requires name in c.world.db && DeadEnd(c.world.db[name].state)
    ensures var w' := Next(max, c, step).world;
            && name in w'.db
            && w'.db[name].state == c.world.db[name].state
            && w'.db[name].id == c.world.db[name].id
  {
    assert InvAt(max, c, name);
    if !step.Cancel? {
      StepIsLocal(max, c, step);
      if step.Advance? {
        assert LiveFor(c, step.worker, c.workers[step.worker].task.name);
      } else if step.name == name {
        CallLeavesDeadEnds(c, step);
      }
    }
  }

  /**
   Whatever runs later, under any faults: the record keeps its ID and its state, its
   name is never inserted again, no worker ever serves it, and the backend never holds it.
   */
  lemma {:induction false} DeadEndsAreForever(max: nat, c: Core, steps: seq<Step>, name: string)
    requires max >= 1 && Inv(max, c) && IsRun(max, c, steps)
    requires name in c.world.db && DeadEnd(c.world.db[name].state)
    ensures var c' := Run(max, c, steps);
            && name in c'.world.db
            && c'.world.db[name].state == c.world.db[name].state
            && c'.world.db[name].id == c.world.db[name].id
            && name !in c'.world.backend
            && forall i :: !LiveFor(c', i, name)
    decreases |steps|
  {
    if steps == [] {
      assert InvAt(max, c, name);
    } else {
      StepKeeps(max, c, steps[0]);
      StepLeavesDeadEnds(max, c, steps[0], name);
      DeadEndsAreForever(max, Next(max, c, steps[0]), steps[1..], name);
    }
  }

  /** Reconciling a volume the backend does not hold leads to such a dead end. */
  lemma ReconcileToPendingIsFinal(max: nat, c: Core, name: string, steps: seq<Step>)
    requires max >= 1 && Inv(max, c)
    requires name in c.world.db && c.world.db[name].state == Error && name !in c.world.backend
    requires IsRun(max, Next(max, c, Reconcile(name, true, NO_FAULTS)), steps)
    ensures var c' := Run(max, Next(max, c, Reconcile(name, true, NO_FAULTS)), steps);
            name in c'.world.db && c'.world.db[name].state == Pending && name !in c'.world.backend
  {
    assert InvAt(max, c, name);
    StepKeeps(max, c, Reconcile(name, true, NO_FAULTS));
    DeadEndsAreForever(max, Next(max, c, Reconcile(name, true, NO_FAULTS)), steps, name);
  }

  // ----- Volumes that nobody works on any more -----

  /** In progress or failed, without a worker: left behind by a DB fault, a cancellation or a crash. */
  ghost predicate Orphaned(c: Core, name: string) {
    name in c.world.db && IsTransitional(c.world.db[name].state) && forall i :: !LiveFor(c, i, name)
  }

  lemma CallLeavesOrphans(c: Core, step: Step)
    requires Enabled(c, step) && !step.Cancel? && !step.Advance?
    requires step.name in c.world.db && c.world.db[step.name].name == step.name
    requires IsTransitional(c.world.db[step.name].state)
    ensures var c' := Next(0, c, step);
            && c'.workers == c.workers && step.name in c'.world.db
            && c'.world.db[step.name].state == c.world.db[step.name].state
            && c'.world.db[step.name].id == c.world.db[step.name].id
  {
  }

  lemma StepLeavesOrphans(max: nat, c: Core, step: Step, name: string)
    requires Filed(c) && Enabled(c, step) && Orphaned(c, name)
    ensures var c' := Next(max, c, step);
            && Orphaned(c', name)
            && c'.world.db[name].state == c.world.db[name].state
            && c'.world.db[name].id == c.world.db[name].id
  {
    assert FiledAt(c, name);
    if step.Cancel? {
      assert forall i :: LiveFor(Next(max, c, step), i, name) == LiveFor(c, i, name);
    } else if step.Advance? || step.name != name {
      assert step.Advance? ==> LiveFor(c, step.worker, Subject(c, step));
      StepElsewhere(max, c, step);
    } else {
      CallLeavesOrphans(c, step);
      assert forall i :: LiveFor(Next(max, c, step), i, name) == LiveFor(c, i, name);
    }
  }

  /**
   Whatever runs later, under any faults, and whether or not the stores agree: such a record
   keeps its state, and no worker ever serves it.  Only a restart repairs it.
   */
  lemma {:induction false} OrphansAreForever(max: nat, c: Core, steps: seq<Step>, name: string)
    requires Filed(c) && IsRun(max, c, steps) && Orphaned(c, name)
    ensures var c' := Run(max, c, steps);
            && Orphaned(c', name)
            && c'.world.db[name].state == c.world.db[name].state
            && c'.world.db[name].id == c.world.db[name].id
    decreases |steps|
  {
    if steps != [] {
      StepKeepsFiled(max, c, steps[0]);
      StepLeavesOrphans(max, c, steps[0], name);
      OrphansAreForever(max, Next(max, c, steps[0]), steps[1..], name);
    }
  }

  // ----- How a volume loses its worker -----

  /**
   The stage ends its worker and leaves the volume in progress or failed: the shutdown is seen;
   the record cannot be loaded or moved; or it is still failed, as after a skipped retry event.
   */
  predicate Strands(w: World, k: Worker, choice: Choice) {
    var stillBroken := k.task.name in w.db && w.db[k.task.name].state == Broken(k.task.kind);
    match k.pc
    case Check => choice.stop
    case Waiting => choice.stop
    case Calling => false
    case Succeeded => !choice.faults.load || choice.faults.update.Refused? || stillBroken
    case Failed => !choice.faults.load || !choice.faults.update.Stored? || stillBroken
    case Exhausted => !choice.faults.load || choice.faults.update.Refused?
    case Retrying => choice.faults.load && !choice.faults.update.Stored?
    case Done => false
  }

  /** What a stage leaves, once its event was applied or not: a transitional record exactly if it did not move on. */
  lemma ApplyLeaves(w: World, v: Volume, event: Event, f: Faults)
    requires v.name in w.db && v.state == w.db[v.name].state
    ensures var o := ApplyEvent(w, v, event, f);
            && v.name in o.world.db
            && o.world.db[v.name].state ==
               (if CanTransition(v.state, event) && !f.update.Refused? then Transition(v.state, event).value
                else v.state)
            && (o.failure.None? <==> CanTransition(v.state, event) && f.update.Stored?)
  {
  }

  /**
   A stage ends its worker on a volume that is still in progress or failed exactly when it strands
   it; a worker that goes on leaves its volume so in any case.
   */
  lemma WorkStrandsExactlyWhen(max: nat, w: World, k: Worker, choice: Choice)
    requires WorkerOk(max, w, k) && !k.pc.Done? && w.db[k.task.name].name == k.task.name
    ensures var (w', k') := Work(max, w, k, choice);
            && k.task.name in w'.db
            && (k'.pc.Done? && IsTransitional(w'.db[k.task.name].state) <==> Strands(w, k, choice))
            && (!k'.pc.Done? ==> IsTransitional(w'.db[k.task.name].state))
  {
    hide ApplyEvent, Transition, Fits, ShapeOf;
    var v, kind, f := w.db[k.task.name], k.task.kind, choice.faults;
    Exact.Edges(kind);
    match k.pc
    case Succeeded => ApplyLeaves(w, PostSuccess(v, kind), Success(kind), f);
    case Failed => ApplyLeaves(w, v, EventError, f);
    case Exhausted => ApplyLeaves(w, v, EventFail, f);
    case Retrying => ApplyLeaves(w, v, EventRetry, f);
    case _ =>
  }

  /**
   The call comes as far as the update that moves the record: its request is valid, and the reads
   and writes before the update work.
   */
  predicate ComesToMove(w: World, step: Step)
    requires !step.Cancel? && !step.Advance?
  {
    match step
    case Create(name, sizeMB, _, _, f) => sizeMB > 0 && f.load && name !in w.db && f.write.Stored?
    case Attach(name, _, f) => f.load && name in w.db && f.write.Stored? && w.db[name].state == Available
    case Release(name, kind, f) => f.load && name in w.db && CanTransition(w.db[name].state, Request(kind))
    case Reconcile(_, _, _) => false
  }

  /** The request of a volume nobody works on takes effect while it is reported as failed, so nobody starts to. */
  predicate StartsNobody(c: Core, step: Step)
    requires !step.Cancel? && !step.Advance?
  {
    ComesToMove(c.world, step) && FaultsOf(step).update.Unacknowledged?
  }

  /** The call leaves a rested volume in progress and starts nobody. */
  predicate LeavesAlone(r: Response, name: string) {
    r.spawned.None? && name in r.world.db && IsTransitional(r.world.db[name].state)
  }

  lemma CreateLeavesAlone(w: World, name: string, sizeMB: int, id: string, backend: string, f: Faults)
    requires AtRest(w, name)
    ensures LeavesAlone(Lifecycle.CreateVolume(w, name, sizeMB, id, backend, f), name) <==>
            ComesToMove(w, Create(name, sizeMB, id, backend, f)) && f.update.Unacknowledged?
  {
  }

  lemma AttachLeavesAlone(w: World, name: string, nodeID: string, f: Faults)
    requires AtRest(w, name) && (name in w.db ==> w.db[name].name == name)
    ensures LeavesAlone(Lifecycle.AttachVolume(w, name, nodeID, f), name) <==>
            ComesToMove(w, Attach(name, nodeID, f)) && f.update.Unacknowledged?
  {
  }

  lemma ReleaseLeavesAlone(w: World, name: string, kind: Kind, f: Faults)
    requires AtRest(w, name) && (name in w.db ==> w.db[name].name == name) && (kind.DetachOp? || kind.DeleteOp?)
    ensures LeavesAlone(Lifecycle.ReleaseVolume(w, name, kind, f), name) <==>
            ComesToMove(w, Release(name, kind, f)) && f.update.Unacknowledged?
  {
  }

  lemma ReconcileLeavesNobodyAlone(w: World, name: string, reachable: bool, f: Faults)
    requires AtRest(w, name) && (name in w.db ==> w.db[name].name == name)
    ensures !LeavesAlone(Lifecycle.ReconcileVolume(w, name, reachable, f), name)
  {
  }

  lemma CallLeavesAlone(c: Core, step: Step)
    requires Filed(c) && Enabled(c, step) && !step.Cancel? && !step.Advance? && AtRest(c.world, step.name)
    ensures LeavesAlone(ResponseTo(c, step), step.name) <==> StartsNobody(c, step)
  {
    assert FiledAt(c, step.name);
    match step
    case Create(name, sizeMB, id, backend, f) => CreateLeavesAlone(c.world, name, sizeMB, id, backend, f);
    case Attach(name, nodeID, f) => AttachLeavesAlone(c.world, name, nodeID, f);
    case Release(name, kind, f) => ReleaseLeavesAlone(c.world, name, kind, f);
    case Reconcile(name, reachable, f) => ReconcileLeavesNobodyAlone(c.world, name, reachable, f);
  }

  /** A call on a volume at rest orphans it exactly when its request takes effect and it is not told so. */
  lemma CallOrphansExactlyWhen(max: nat, c: Core, step: Step)
    requires Filed(c) && Enabled(c, step) && !step.Cancel? && !step.Advance?
    requires AtRest(c.world, step.name) && forall i :: !LiveFor(c, i, step.name)
    ensures Orphaned(Next(max, c, step), step.name) <==> StartsNobody(c, step)
  {
    CallLeavesAlone(c, step);
    var n, r, c' := step.name, ResponseTo(c, step), Next(max, c, step);
    assert c' == Respond(c, r).(born := c'.born);
    hide Next, ResponseTo;
    assert forall i | i < |c.workers| :: LiveFor(c', i, n) == LiveFor(c, i, n);
    if r.spawned.Some? {
      SpawnsItself(c, step);
      assert LiveFor(c', |c.workers|, n);
    }
  }

  /** The step takes the worker of a volume away, or keeps it from having one. */
  predicate Abandons(c: Core, step: Step, name: string)
    requires Enabled(c, step)
  {
    && !step.Cancel? && Subject(c, step) == name
    && if step.Advance? then Strands(c.world, c.workers[step.worker], step.choice) else StartsNobody(c, step)
  }

  lemma StageOrphansExactlyWhen(max: nat, c: Core, i: nat, choice: Choice)
    requires Inv(max, c) && Enabled(c, Advance(i, choice))
    ensures Orphaned(Next(max, c, Advance(i, choice)), c.workers[i].task.name)
       <==> Strands(c.world, c.workers[i], choice)
  {
    var k, c' := c.workers[i], Next(max, c, Advance(i, choice));
    var n := k.task.name;
    assert InvAt(max, c, n) && LiveFor(c, i, n);
    WorkStrandsExactlyWhen(max, c.world, k, choice);
    WorkOk(max, c.world, k, choice);
    hide Strands, Work, WorkerOk;
    assert LiveFor(c', i, n) <==> !c'.workers[i].pc.Done?;
    forall j | j != i ensures !LiveFor(c', j, n) {
      assert LiveFor(c', j, n) ==> LiveFor(c, j, n);
    }
  }

  lemma ServedStaysServed(max: nat, c: Core, step: Step, i: nat)
    requires Filed(c) && Enabled(c, step) && !step.Cancel? && !step.Advance? && LiveFor(c, i, step.name)
    requires IsTransitional(c.world.db[step.name].state)
    ensures !Orphaned(Next(max, c, step), step.name) && !StartsNobody(c, step)
  {
    assert Employed(c, i) && FiledAt(c, step.name);
    CallLeavesOrphans(c, step);
    assert LiveFor(Next(max, c, step), i, step.name);
  }

  /** A volume comes to be without a worker, in progress or failed, exactly at such steps. */
  lemma StepOrphansExactlyWhen(max: nat, c: Core, step: Step, name: string)
    requires Inv(max, c) && Enabled(c, step) && !Orphaned(c, name)
    ensures Orphaned(Next(max, c, step), name) <==> Abandons(c, step, name)
  {
    var c' := Next(max, c, step);
    assert InvAt(max, c, name);
    if step.Cancel? {
      assert forall i :: LiveFor(c', i, name) == LiveFor(c, i, name);
    } else if Subject(c, step) != name {
      StepElsewhere(max, c, step);
    } else if step.Advance? {
      StageOrphansExactlyWhen(max, c, step.worker, step.choice);
    } else if i :| LiveFor(c, i, name) {
      assert WorkerOk(max, c.world, c.workers[i]);
      ServedStaysServed(max, c, step, i);
    } else {
      CallOrphansExactlyWhen(max, c, step);
    }
  }

  ghost predicate Abandoned(max: nat, c: Core, steps: seq<Step>, name: string)
    requires IsRun(max, c, steps)
    decreases |steps|
  {
    steps != [] && (Abandons(c, steps[0], name) || Abandoned(max, Next(max, c, steps[0]), steps[1..], name))
  }

  /**
   And so after any run, under any faults: a volume is in progress or failed without a worker exactly
   when it was so before, or some step of the run abandons it.
   */
  lemma {:induction false} RunOrphansExactlyWhen(max: nat, c: Core, steps: seq<Step>, name: string)
    requires max >= 1 && Inv(max, c) && IsRun(max, c, steps)
    ensures Orphaned(Run(max, c, steps), name) <==> Orphaned(c, name) || Abandoned(max, c, steps, name)
    decreases |steps|
  {
    if steps != [] {
      StepKeeps(max, c, steps[0]);
      if Orphaned(c, name) {
        OrphansAreForever(max, c, steps, name);
      } else {
        StepOrphansExactlyWhen(max, c, steps[0], name);
        RunOrphansExactlyWhen(max, Next(max, c, steps[0]), steps[1..], name);
      }
    }
  }
}
