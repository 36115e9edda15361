/**
 When nothing fails on the way, nothing fails: in every run without faults, lost answers and
 shutdown, the first backend call of every accepted request succeeds.
 */
module FirstTry {
  import opened Storage
  import opened Fsm
  import opened Lifecycle
  import opened Engine
  import opened Filing
  import opened Agreement
  import opened Audit
  import opened Exact

  /** The database works, the system is not shutting down, and the backend's answers are its own. */
  predicate Flawless(step: Step) {
    Sound(step) && (step.Advance? ==> step.choice.reply.Truthful?)
  }

  ghost predicate FlawlessRun(steps: seq<Step>) {
    forall step <- steps :: Flawless(step)
  }

  /** A state that no request leads through when all goes well. */
  predicate OffTrack(s: State) {
    || s == Pending || s == Error
    || s == CreatingFailed || s == AttachingFailed || s == DetachingFailed || s == DeletingFailed
  }

  /**
   The backend is as the request found it: it holds no volume to create, an idle one to attach or
   delete, and one on a node to detach.
   */
  predicate Ready(task: Task, shape: Shape) {
    match task.kind
    case CreateOp => shape.Absent? && task.sizeMB > 0
    case AttachOp => shape.Idle?
    case DetachOp => shape.OnNode?
    case DeleteOp => shape.Idle?
  }

  /** The worker is on its first attempt, and has not failed. */
  predicate AtFirstTry(w: World, k: Worker) {
    && k.attempt == 1 && (k.pc.Check? || k.pc.Calling? || k.pc.Succeeded?)
    && (!k.pc.Succeeded? ==> Ready(k.task, ShapeOf(w.backend, k.task.name)))
  }

  ghost predicate UnfailedAt(c: Core, name: string) {
    && (name in c.world.db ==> !OffTrack(c.world.db[name].state))
    && (forall i | LiveFor(c, i, name) :: AtFirstTry(c.world, c.workers[i]))
  }

  /** No error is logged, none is failed or in error, and nobody tries again. */
  ghost predicate Unfailed(c: Core) {
    && (forall e <- c.world.log :: e.cause != Applied(EventError))
    && (forall name :: UnfailedAt(c, name))
  }

  lemma OtherStaysUnfailed(c: Core, c': Core, subject: string, name: string)
    requires Elsewhere(c, c', subject) && name != subject && UnfailedAt(c, name)
    ensures UnfailedAt(c', name)
  {
  }

  predicate LogsNoError(w: World, w': World) {
    || w'.log == w.log
    || (|w'.log| > 0 && w'.log == w.log + [w'.log[|w'.log| - 1]] && w'.log[|w'.log| - 1].cause != Applied(EventError))
  }

  // ----- Workers -----

  /** The backend does what it is ready for. */
  lemma ReadyIsServed(w: World, task: Task, uuid: string)
    requires Ready(task, ShapeOf(w.backend, task.name))
    ensures Call(w, task, Truthful, uuid).1
  {
  }

  lemma StageStaysUnfailed(max: nat, w: World, k: Worker, choice: Choice)
    requires WorkerOk(max, w, k) && w.db[k.task.name].name == k.task.name && w.db[k.task.name].state == StageState(k)
    requires AtFirstTry(w, k) && choice.faults == NO_FAULTS && !choice.stop && choice.reply.Truthful?
    ensures var (w', k') := Work(max, w, k, choice);
            && k'.task == k.task && k.task.name in w'.db && !OffTrack(w'.db[k.task.name].state)
            && (k'.pc.Done? || AtFirstTry(w', k'))
            && LogsNoError(w, w')
  {
    if k.pc.Calling? {
      ReadyIsServed(w, k.task, choice.uuid);
    } else if k.pc.Succeeded? {
      Edges(k.task.kind);
    }
  }

  lemma AdvanceStaysUnfailed(max: nat, c: Core, i: nat, choice: Choice)
    requires Inv(max, c) && Exactly(c) && Unfailed(c)
    requires Enabled(c, Advance(i, choice)) && Flawless(Advance(i, choice))
    ensures var c' := Next(max, c, Advance(i, choice));
            UnfailedAt(c', c.workers[i].task.name) && forall e <- c'.world.log :: e.cause != Applied(EventError)
  {
    var n, c' := c.workers[i].task.name, Next(max, c, Advance(i, choice));
    assert InvAt(max, c, n) && ExactAt(c, n) && UnfailedAt(c, n) && LiveFor(c, i, n);
    StageStaysUnfailed(max, c.world, c.workers[i], choice);
    hide AtFirstTry, Work, OffTrack, WorkerOk;
    forall j | LiveFor(c', j, n) ensures j == i {
      assert LiveFor(c, j, n);
    }
  }

  // ----- Calls -----

  /** A call starts a worker that the backend is ready for, and moves nothing to a failed state. */
  predicate StartsReady(w: World, r: Response, name: string) {
    && r.world.backend == w.backend
    && (name in r.world.db ==>
          (name in w.db && r.world.db[name].state == w.db[name].state) || !OffTrack(r.world.db[name].state))
    && (r.spawned.Some? ==> r.spawned.value.name == name && Ready(r.spawned.value, ShapeOf(w.backend, name)))
    && LogsNoError(w, r.world)
  }

  lemma CreateStartsReady(w: World, name: string, sizeMB: int, id: string, backend: string)
    requires AgreeAt(w, name)
    ensures StartsReady(w, Lifecycle.CreateVolume(w, name, sizeMB, id, backend, NO_FAULTS), name)
  {
  }

  lemma AttachStartsReady(w: World, name: string, nodeID: string)
    requires AgreeAt(w, name) && (name in w.db ==> w.db[name].name == name)
    ensures StartsReady(w, Lifecycle.AttachVolume(w, name, nodeID, NO_FAULTS), name)
  {
  }

  lemma ReleaseStartsReady(w: World, name: string, kind: Kind)
    requires AgreeAt(w, name) && (name in w.db ==> w.db[name].name == name) && (kind.DetachOp? || kind.DeleteOp?)
    ensures StartsReady(w, Lifecycle.ReleaseVolume(w, name, kind, NO_FAULTS), name)
  {
  }

  lemma ReconcileStartsReady(w: World, name: string, reachable: bool)
    requires AgreeAt(w, name) && (name in w.db ==> w.db[name].name == name && !OffTrack(w.db[name].state))
    ensures StartsReady(w, Lifecycle.ReconcileVolume(w, name, reachable, NO_FAULTS), name)
  {
  }

  lemma CallStartsReady(max: nat, c: Core, step: Step)
    requires Inv(max, c) && Enabled(c, step) && Sound(step) && !step.Advance? && UnfailedAt(c, step.name)
    ensures StartsReady(c.world, ResponseTo(c, step), step.name)
  {
    assert InvAt(max, c, step.name);
    match step
    case Create(name, sizeMB, id, backend, f) => CreateStartsReady(c.world, name, sizeMB, id, backend);
    case Attach(name, nodeID, f) => AttachStartsReady(c.world, name, nodeID);
    case Release(name, kind, f) => ReleaseStartsReady(c.world, name, kind);
    case Reconcile(name, reachable, f) => ReconcileStartsReady(c.world, name, reachable);
  }

  lemma CallStaysUnfailed(max: nat, c: Core, step: Step)
    requires Inv(max, c) && Unfailed(c) && Enabled(c, step) && Sound(step) && !step.Advance?
    ensures var c' := Next(max, c, step);
            UnfailedAt(c', step.name) && forall e <- c'.world.log :: e.cause != Applied(EventError)
  {
    var n, r, c' := step.name, ResponseTo(c, step), Next(max, c, step);
    assert UnfailedAt(c, n);
    CallStartsReady(max, c, step);
    assert c' == Respond(c, r).(born := c'.born);
    hide Next, ResponseTo, OffTrack, Ready, ShapeOf;
    forall i | LiveFor(c', i, n) ensures AtFirstTry(c'.world, c'.workers[i]) {
      if i < |c.workers| {
        assert LiveFor(c, i, n);
      }
    }
  }

  lemma StepStaysUnfailed(max: nat, c: Core, step: Step)
    requires Inv(max, c) && Exactly(c) && Unfailed(c) && Enabled(c, step) && Flawless(step)
    ensures Unfailed(Next(max, c, step))
  {
    if step.Advance? {
      AdvanceStaysUnfailed(max, c, step.worker, step.choice);
    } else {
      CallStaysUnfailed(max, c, step);
    }
    forall name | name != Subject(c, step) ensures UnfailedAt(Next(max, c, step), name) {
      assert UnfailedAt(c, name);
      StepElsewhere(max, c, step);
      OtherStaysUnfailed(c, Next(max, c, step), Subject(c, step), name);
    }
  }

  lemma {:induction false} RunStaysUnfailed(max: nat, c: Core, steps: seq<Step>)
    requires max >= 1 && Inv(max, c) && Exactly(c) && Unfailed(c) && IsRun(max, c, steps) && FlawlessRun(steps)
    ensures Inv(max, Run(max, c, steps)) && Exactly(Run(max, c, steps)) && Unfailed(Run(max, c, steps))
    decreases |steps|
  {
    if steps != [] {
      assert Flawless(steps[0]);
      StepKeeps(max, c, steps[0]);
      StepStaysExact(max, c, steps[0]);
      StepStaysUnfailed(max, c, steps[0]);
      RunStaysUnfailed(max, Next(max, c, steps[0]), steps[1..]);
    }
  }

  /**
   In every such run from the empty system no error is ever logged, every worker that still works is
   on its first attempt, and a volume that nobody works on is available, attached or deleted.
   */
  lemma FirstTriesSucceed(max: nat, steps: seq<Step>, name: string)
    requires max >= 1 && IsRun(max, EMPTY, steps) && FlawlessRun(steps)
    ensures var c := Run(max, EMPTY, steps);
            && (forall e <- c.world.log :: e.cause != Applied(EventError))
            && (forall i | LiveFor(c, i, name) :: c.workers[i].attempt == 1)
            && (name in c.world.db ==>
                  var s := c.world.db[name].state;
                  && (s == Creating || s == Attaching || s == Detaching || s == Deleting
                      || s == Available || s == Attached || s == Deleted)
                  && (s == Available || s == Attached || s == Deleted <==> forall i :: !LiveFor(c, i, name)))
  {
    EmptyInv(max);
    RunStaysUnfailed(max, EMPTY, steps);
    var c := Run(max, EMPTY, steps);
    assert UnfailedAt(c, name) && ExactAt(c, name);
  }
}
