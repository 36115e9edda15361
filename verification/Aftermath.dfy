/**
 What becomes of an operation whose backend call took effect and was reported as failed, in the
 running system: while other calls and workers go on, it ends in error, and the first reconcile
 that finds it there recovers what was done.
 */
module Aftermath {
  import opened Storage
  import opened Fsm
  import opened Lifecycle
  import opened Engine
  import opened Filing
  import opened Agreement
  import opened Exact
  import Permanence
  import Recovery

  /** What the backend holds under the name once the operation was served. */
  predicate EffectHeld(task: Task, held: Option<Volume>) {
    match task.kind
    case CreateOp => held.Some? && held.value.state == Available && held.value.nodeID == ""
    case AttachOp => held.Some? && held.value.state == Attached && held.value.nodeID == task.nodeID
    case DetachOp => held.Some? && held.value.state == Available && held.value.nodeID == ""
    case DeleteOp => held.None?
  }

  /** The effect shows, and the call is never served again. */
  lemma ServedShows(w: World, task: Task, uuid: string)
    ensures Serve(w.backend, task, uuid).Some? ==>
              EffectHeld(task, Held(w.(backend := Serve(w.backend, task, uuid).value), task.name))
    ensures EffectHeld(task, Held(w, task.name)) ==> Serve(w.backend, task, uuid).None?
  {
  }

  /**
   The effect stands, and the worker does not know of it: it is still trying, or it has failed as
   often as it may and left the record in error.
   */
  ghost predicate Unanswered(max: nat, c: Core, i: nat, task: Task) {
    && i < |c.workers| && c.workers[i].task == task && (task.kind.AttachOp? ==> task.nodeID != "")
    && EffectHeld(task, Held(c.world, task.name))
    && task.name in c.world.db
    && !c.workers[i].pc.Succeeded?
    && (c.workers[i].pc.Done? ==> c.world.db[task.name].state == Error && c.workers[i].attempt == max)
  }

  /** An answered reconcile that finds the record in error. */
  predicate Recovers(c: Core, step: Step, name: string) {
    && step.Reconcile? && step.name == name && step.reachable
    && name in c.world.db && c.world.db[name].state == Error
  }

  /** The operation's target, on its node; but pending after a delete. */
  predicate IsRecovered(w: World, task: Task) {
    && task.name in w.db
    && w.db[task.name].state == Recovery.Recovered(task.kind)
    && w.db[task.name].nodeID == if task.kind.AttachOp? then task.nodeID else ""
  }

  // ----- One step -----

  /** A stage of the worker itself. */
  lemma StageStaysUnanswered(max: nat, w: World, k: Worker, choice: Choice)
    requires WorkerOk(max, w, k) && w.db[k.task.name].name == k.task.name && w.db[k.task.name].state == StageState(k)
    requires !k.pc.Done? && !k.pc.Succeeded? && choice.faults == NO_FAULTS && !choice.stop
    requires EffectHeld(k.task, Held(w, k.task.name))
    ensures var (w', k') := Work(max, w, k, choice);
            && k'.task == k.task && !k'.pc.Succeeded? && w'.backend == w.backend && k.task.name in w'.db
            && (k'.pc.Done? ==> w'.db[k.task.name].state == Error && k'.attempt == max)
  {
    ServedShows(w, k.task, choice.uuid);
    SoundWork(max, w, k, choice);
    hide EffectHeld, Serve, Transition, Fits, ShapeOf;
    Edges(k.task.kind);
  }

  lemma AdvanceStaysUnanswered(max: nat, c: Core, i: nat, task: Task, j: nat, choice: Choice)
    requires Inv(max, c) && Exactly(c) && Enabled(c, Advance(j, choice)) && Sound(Advance(j, choice))
    requires Unanswered(max, c, i, task) && c.workers[j].task.name == task.name
    ensures Unanswered(max, Next(max, c, Advance(j, choice)), i, task)
  {
    assert InvAt(max, c, task.name) && ExactAt(c, task.name) && LiveFor(c, j, task.name);
    if c.workers[i].pc.Done? {
      assert false;
    } else {
      assert LiveFor(c, i, task.name);
      StageStaysUnanswered(max, c.world, c.workers[i], choice);
    }
  }

  /** A call on a volume in error that does not recover it. */
  lemma ErrorStays(c: Core, step: Step)
    requires Enabled(c, step) && Sound(step) && !step.Cancel? && !step.Advance? && FiledAt(c, step.name)
    requires step.name in c.world.db && c.world.db[step.name].state == Error && !Recovers(c, step, step.name)
    ensures var c' := Next(0, c, step);
            && c'.workers == c.workers && c'.world.backend == c.world.backend
            && step.name in c'.world.db && c'.world.db[step.name].state == Error
  {
  }

  lemma ReconcileRecovers(c: Core, step: Step, task: Task)
    requires Enabled(c, step) && Sound(step) && Recovers(c, step, task.name) && FiledAt(c, task.name)
    requires EffectHeld(task, Held(c.world, task.name)) && (task.kind.AttachOp? ==> task.nodeID != "")
    ensures IsRecovered(Next(0, c, step).world, task)
  {
  }

  lemma CallKeepsBackend(c: Core, step: Step)
    requires Enabled(c, step) && !step.Cancel? && !step.Advance?
    ensures Next(0, c, step).world.backend == c.world.backend
  {
  }

  lemma CallStaysUnanswered(max: nat, c: Core, i: nat, task: Task, step: Step)
    requires Inv(max, c) && Exactly(c) && Enabled(c, step) && Sound(step) && Unanswered(max, c, i, task)
    requires !step.Advance? && !step.Cancel? && step.name == task.name && !Recovers(c, step, task.name)
    ensures Unanswered(max, Next(max, c, step), i, task)
  {
    assert FiledAt(c, task.name) && ExactAt(c, task.name);
    hide EffectHeld, Next, Recovers;
    assert Next(max, c, step) == Next(0, c, step) by { MaxIsForWorkers(max, c, step); }
    CallKeepsBackend(c, step);
    if c.workers[i].pc.Done? {
      ErrorStays(c, step);
    } else {
      assert LiveFor(c, i, task.name);
      Permanence.CallLeavesOrphans(c, step);
    }
  }

  lemma MaxIsForWorkers(max: nat, c: Core, step: Step)
    requires Enabled(c, step) && !step.Advance?
    ensures Next(max, c, step) == Next(0, c, step)
  {
  }

  lemma OtherStaysUnanswered(max: nat, c: Core, i: nat, task: Task, step: Step)
    requires Filed(c) && Enabled(c, step) && Unanswered(max, c, i, task)
    requires !step.Cancel? && Subject(c, step) != task.name
    ensures Unanswered(max, Next(max, c, step), i, task)
  {
    StepIsLocal(max, c, step);
    if !step.Advance? {
      SpawnsItself(c, step);
      MaxIsForWorkers(max, c, step);
      var c' := Next(max, c, step);
      assert c'.workers[i] == c'.workers[..|c.workers|][i];
    }
  }

  /** A step leaves the operation as it is, unanswered, or recovers its effect. */
  lemma StepRecoversOrNot(max: nat, c: Core, i: nat, task: Task, step: Step)
    requires Inv(max, c) && Exactly(c) && Enabled(c, step) && Sound(step) && Unanswered(max, c, i, task)
    ensures if Recovers(c, step, task.name) then IsRecovered(Next(max, c, step).world, task)
            else Unanswered(max, Next(max, c, step), i, task)
  {
    assert FiledAt(c, task.name);
    if Recovers(c, step, task.name) {
      MaxIsForWorkers(max, c, step);
      ReconcileRecovers(c, step, task);
    } else if Subject(c, step) != task.name {
      OtherStaysUnanswered(max, c, i, task, step);
    } else if step.Advance? {
      AdvanceStaysUnanswered(max, c, i, task, step.worker, step.choice);
    } else {
      CallStaysUnanswered(max, c, i, task, step);
    }
  }

  // ----- Every run -----

  /**
   At every moment of the run the operation is unanswered, up to the first answered reconcile that
   finds it in error, and that recovers it.
   */
  ghost predicate UntilRecovered(max: nat, c: Core, steps: seq<Step>, i: nat, task: Task)
    requires IsRun(max, c, steps)
    decreases |steps|
  {
    && Unanswered(max, c, i, task)
    && (steps != [] ==>
          var next := Next(max, c, steps[0]);
          if Recovers(c, steps[0], task.name) then IsRecovered(next.world, task)
          else UntilRecovered(max, next, steps[1..], i, task))
  }

  lemma {:induction false} RunRecovers(max: nat, c: Core, steps: seq<Step>, i: nat, task: Task)
    requires max >= 1 && Inv(max, c) && Exactly(c) && Unanswered(max, c, i, task)
    requires IsRun(max, c, steps) && SoundRun(steps)
    ensures UntilRecovered(max, c, steps, i, task)
    decreases |steps|
  {
    if steps != [] {
      StepRecoversOrNot(max, c, i, task, steps[0]);
      if !Recovers(c, steps[0], task.name) {
        StepKeeps(max, c, steps[0]);
        StepStaysExact(max, c, steps[0]);
        RunRecovers(max, Next(max, c, steps[0]), steps[1..], i, task);
      }
    }
  }

  /** The worker's call, served and reported as failed. */
  function Lost(i: nat, uuid: string): Step {
    Advance(i, Choice(false, Unreported, uuid, NO_FAULTS))
  }

  /**
   A call that is served and reported as failed, in any sound state of the system: in every sound
   run from there, whatever else is called and whoever else works, the effect stands, and the
   worker goes on failing until it has used its last attempt and left the record in error; and the
   first answered reconcile that finds it there brings it to the operation's target, on its node,
   or to pending after a delete.
   */
  lemma LostAnswersAreRecovered(max: nat, c: Core, i: nat, uuid: string, steps: seq<Step>)
    requires max >= 1 && Inv(max, c) && Exactly(c) && Enabled(c, Lost(i, uuid)) && c.workers[i].pc.Calling?
    requires Serve(c.world.backend, c.workers[i].task, uuid).Some?
    requires IsRun(max, Next(max, c, Lost(i, uuid)), steps) && SoundRun(steps)
    ensures UntilRecovered(max, Next(max, c, Lost(i, uuid)), steps, i, c.workers[i].task)
  {
    var k := c.workers[i];
    assert InvAt(max, c, k.task.name) && LiveFor(c, i, k.task.name);
    ServedShows(c.world, k.task, uuid);
    StepKeeps(max, c, Lost(i, uuid));
    StepStaysExact(max, c, Lost(i, uuid));
    RunRecovers(max, Next(max, c, Lost(i, uuid)), steps, i, k.task);
  }
}
