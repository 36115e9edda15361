/**
 The database and the backend agree, in every interleaving, under every DB fault,
 every unreported backend effect and cancellation at any point; and no volume ever
 has two live workers.
 */
module Agreement {
  import opened Storage
  import opened Fsm
  import opened Lifecycle
  import opened Engine
  import opened Filing

  /** What the backend holds under a name. */
  datatype Shape = Absent | Idle | OnNode | Malformed

  function ShapeOf(held: map<string, Volume>, name: string): Shape {
    if name !in held then Absent
    else if held[name].state == Available && held[name].nodeID == "" then Idle
    else if held[name].state == Attached && held[name].nodeID != "" then OnNode
    else Malformed
  }

  /** The backend shapes that a DB state admits; settled states admit exactly one. */
  predicate Fits(s: State, shape: Shape) {
    match s
    case Pending => shape.Absent?
    case Deleted => shape.Absent?
    case Available => shape.Idle?
    case Attached => shape.OnNode?
    case Creating => shape.Absent? || shape.Idle?
    case CreatingFailed => shape.Absent? || shape.Idle?
    case Attaching => shape.Idle? || shape.OnNode?
    case AttachingFailed => shape.Idle? || shape.OnNode?
    case Detaching => shape.Idle? || shape.OnNode?
    case DetachingFailed => shape.Idle? || shape.OnNode?
    case Deleting => shape.Absent? || shape.Idle?
    case DeletingFailed => shape.Absent? || shape.Idle?
    case Error => !shape.Malformed?
  }

  /** The two stores agree on one name: state, size, and absence. */
  predicate AgreeAt(w: World, name: string) {
    if name in w.db then
      && Fits(w.db[name].state, ShapeOf(w.backend, name))
      && (name in w.backend ==> w.backend[name].sizeMB == w.db[name].sizeMB)
    else
      name !in w.backend
  }

  /** The DB states in which a live worker can be found at each stage. */
  predicate StageFits(s: State, k: Worker) {
    s == Broken(k.task.kind) || (s == Busy(k.task.kind) && !k.pc.Exhausted? && !k.pc.Waiting? && !k.pc.Retrying?)
  }

  predicate AttemptFits(max: nat, k: Worker) {
    && 1 <= k.attempt <= max
    && (k.pc.Exhausted? ==> k.attempt == max)
    && (k.pc.Waiting? || k.pc.Retrying? ==> k.attempt < max)
  }

  /**
   What holds of a live worker: its volume is in a state of its own operation, and
   between the backend's success and the DB event the backend already shows the target.
   */
  predicate WorkerOk(max: nat, w: World, k: Worker) {
    && k.task.name in w.db
    && StageFits(w.db[k.task.name].state, k)
    && AttemptFits(max, k)
    && (k.task.kind.CreateOp? ==> k.task.sizeMB == w.db[k.task.name].sizeMB)
    && (k.task.kind.AttachOp? ==> k.task.nodeID != "")
    && (k.pc.Succeeded? ==> Fits(Target(k.task.kind), ShapeOf(w.backend, k.task.name)))
  }

  /** At most one live worker serves the volume, and it is where its stage says. */
  ghost predicate SoloAt(max: nat, c: Core, name: string) {
    && (forall i, j | LiveFor(c, i, name) && LiveFor(c, j, name) :: i == j)
    && (forall i | LiveFor(c, i, name) :: WorkerOk(max, c.world, c.workers[i]))
  }

  ghost predicate InvAt(max: nat, c: Core, name: string) {
    FiledAt(c, name) && AgreeAt(c.world, name) && SoloAt(max, c, name)
  }

  ghost predicate Inv(max: nat, c: Core) {
    Filed(c) && forall name :: InvAt(max, c, name)
  }

  lemma OthersKeep(max: nat, c: Core, c': Core, subject: string, name: string)
    requires Elsewhere(c, c', subject) && name != subject && InvAt(max, c, name)
    ensures InvAt(max, c', name)
  {
  }

  // ----- One name, one step -----

  /** A volume nobody works on. */
  predicate AtRest(w: World, name: string) {
    name in w.db ==> !IsTransitional(w.db[name].state)
  }

  /** Everything a worker relies on is as it was. */
  predicate SameFor(w: World, w': World, name: string) {
    && name in w.db && name in w'.db
    && w'.db[name].state == w.db[name].state
    && w'.db[name].sizeMB == w.db[name].sizeMB
    && w'.backend == w.backend
  }

  /** An API call either leaves a worker's view alone, or finds no worker and may start one. */
  ghost predicate ApiOk(max: nat, w: World, r: Response, name: string) {
    && AgreeAt(r.world, name)
    && (AtRest(w, name) || (SameFor(w, r.world, name) && r.spawned.None?))
    && (r.spawned.Some? ==> r.spawned.value.name == name && WorkerOk(max, r.world, Start(r.spawned.value)))
  }

  lemma CreateOk(max: nat, w: World, name: string, sizeMB: int, id: string, backend: string, f: Faults)
    requires max >= 1 && AgreeAt(w, name)
    ensures ApiOk(max, w, Lifecycle.CreateVolume(w, name, sizeMB, id, backend, f), name)
  {
  }

  lemma AttachOk(max: nat, w: World, name: string, nodeID: string, f: Faults)
    requires max >= 1 && AgreeAt(w, name) && nodeID != "" && (name in w.db ==> w.db[name].name == name)
    ensures ApiOk(max, w, Lifecycle.AttachVolume(w, name, nodeID, f), name)
  {
  }

  lemma ReleaseOk(max: nat, w: World, name: string, kind: Kind, f: Faults)
    requires max >= 1 && AgreeAt(w, name) && (kind.DetachOp? || kind.DeleteOp?)
    requires name in w.db ==> w.db[name].name == name
    ensures ApiOk(max, w, Lifecycle.ReleaseVolume(w, name, kind, f), name)
  {
  }

  lemma ReconcileOk(max: nat, w: World, name: string, reachable: bool, f: Faults)
    requires max >= 1 && AgreeAt(w, name) && (name in w.db ==> w.db[name].name == name)
    ensures ApiOk(max, w, Lifecycle.ReconcileVolume(w, name, reachable, f), name)
  {
  }

  /** A backend call keeps the stores in agreement, and a reported success shows the target. */
  lemma CallOk(max: nat, w: World, k: Worker, reply: Reply, uuid: string)
    requires WorkerOk(max, w, k) && AgreeAt(w, k.task.name)
    ensures var (w', ok) := Call(w, k.task, reply, uuid);
            && AgreeAt(w', k.task.name)
            && w'.db == w.db
            && (ok ==> Fits(Target(k.task.kind), ShapeOf(w'.backend, k.task.name)))
  {
    match k.task.kind
    case CreateOp =>
    case AttachOp =>
    case DetachOp =>
    case DeleteOp =>
  }

  /** An event keeps the stores in agreement when its target admits what the backend holds. */
  lemma ApplyOk(w: World, v: Volume, event: Event, f: Faults)
    requires v.name in w.db && v.sizeMB == w.db[v.name].sizeMB && AgreeAt(w, v.name)
    requires CanTransition(v.state, event) ==> Fits(Transition(v.state, event).value, ShapeOf(w.backend, v.name))
    ensures var o := ApplyEvent(w, v, event, f);
            && AgreeAt(o.world, v.name)
            && o.world.backend == w.backend
            && v.name in o.world.db
            && o.world.db[v.name].sizeMB == v.sizeMB
            && (o.failure.None? ==> Transition(v.state, event) == Some(o.world.db[v.name].state))
  {
  }

  /** A stage keeps the stores in agreement and leaves the worker where its next stage says. */
  predicate StageOk(max: nat, w: World, k: Worker, w': World, k': Worker) {
    && AgreeAt(w', k.task.name)
    && k'.task == k.task
    && (k'.pc.Done? || WorkerOk(max, w', k'))
  }

  predicate Workable(max: nat, w: World, k: Worker) {
    WorkerOk(max, w, k) && AgreeAt(w, k.task.name) && w.db[k.task.name].name == k.task.name
  }

  lemma CallStageOk(max: nat, w: World, k: Worker, choice: Choice)
    requires Workable(max, w, k) && k.pc.Calling?
    ensures var (w', k') := Work(max, w, k, choice); StageOk(max, w, k, w', k')
  {
    CallOk(max, w, k, choice.reply, choice.uuid);
  }

  lemma LastStageOk(max: nat, w: World, k: Worker, choice: Choice)
    requires Workable(max, w, k) && (k.pc.Succeeded? || k.pc.Exhausted?)
    ensures var (w', k') := Work(max, w, k, choice); StageOk(max, w, k, w', k')
  {
    var v := w.db[k.task.name];
    ApplyOk(w, if k.pc.Succeeded? then PostSuccess(v, k.task.kind) else v,
            if k.pc.Succeeded? then Success(k.task.kind) else EventFail, choice.faults);
  }

  lemma FailureStageOk(max: nat, w: World, k: Worker, choice: Choice)
    requires Workable(max, w, k) && (k.pc.Failed? || k.pc.Retrying?)
    ensures var (w', k') := Work(max, w, k, choice); StageOk(max, w, k, w', k')
  {
    ApplyOk(w, w.db[k.task.name], if k.pc.Failed? then EventError else EventRetry, choice.faults);
  }

  lemma WorkOk(max: nat, w: World, k: Worker, choice: Choice)
    requires Workable(max, w, k)
    ensures var (w', k') := Work(max, w, k, choice); StageOk(max, w, k, w', k')
  {
    match k.pc
    case Calling => CallStageOk(max, w, k, choice);
    case Succeeded => LastStageOk(max, w, k, choice);
    case Exhausted => LastStageOk(max, w, k, choice);
    case Failed => FailureStageOk(max, w, k, choice);
    case Retrying => FailureStageOk(max, w, k, choice);
    case _ =>
  }

  // ----- Every step, every run -----

  /** Replacing a live worker by its next stage keeps the invariant at its volume. */
  lemma AdvanceKeeps(max: nat, c: Core, i: nat, w': World, k': Worker)
    requires Live(c, i) && SoloAt(max, c, c.workers[i].task.name)
    requires k'.task == c.workers[i].task && (k'.pc.Done? || WorkerOk(max, w', k'))
    ensures SoloAt(max, c.(world := w', workers := c.workers[i := k']), k'.task.name)
  {
    var n := k'.task.name;
    var c' := c.(world := w', workers := c.workers[i := k']);
    assert LiveFor(c, i, n);
    forall j | LiveFor(c', j, n) ensures j == i {
      assert LiveFor(c, j, n);
    }
  }

  /** An API call's response keeps the invariant at its volume. */
  lemma RespondKeeps(max: nat, c: Core, r: Response, name: string)
    requires SoloAt(max, c, name) && ApiOk(max, c.world, r, name)
    ensures SoloAt(max, Respond(c, r), name)
  {
    var c' := Respond(c, r);
    forall i | LiveFor(c', i, name) && i < |c.workers| ensures LiveFor(c, i, name) && c'.workers[i] == c.workers[i] {
      assert c'.workers[i] == c.workers[i];
    }
  }

  lemma CallKeeps(max: nat, c: Core, step: Step)
    requires max >= 1 && Inv(max, c) && Enabled(c, step) && !step.Cancel? && !step.Advance?
    ensures var c' := Next(max, c, step);
            AgreeAt(c'.world, step.name) && SoloAt(max, c', step.name)
  {
    assert InvAt(max, c, step.name);
    match step
    case Create(name, sizeMB, id, backend, f) =>
      CreateOk(max, c.world, name, sizeMB, id, backend, f);
      RespondKeeps(max, c, Lifecycle.CreateVolume(c.world, name, sizeMB, id, backend, f), name);
    case Attach(name, nodeID, f) =>
      AttachOk(max, c.world, name, nodeID, f);
      RespondKeeps(max, c, Lifecycle.AttachVolume(c.world, name, nodeID, f), name);
    case Release(name, kind, f) =>
      ReleaseOk(max, c.world, name, kind, f);
      RespondKeeps(max, c, Lifecycle.ReleaseVolume(c.world, name, kind, f), name);
    case Reconcile(name, reachable, f) =>
      ReconcileOk(max, c.world, name, reachable, f);
      RespondKeeps(max, c, Lifecycle.ReconcileVolume(c.world, name, reachable, f), name);
  }

  lemma WorkKeeps(max: nat, c: Core, i: nat, choice: Choice)
    requires Inv(max, c) && Enabled(c, Advance(i, choice))
    ensures var c' := Next(max, c, Advance(i, choice));
            var n := c.workers[i].task.name;
            AgreeAt(c'.world, n) && SoloAt(max, c', n)
  {
    var k := c.workers[i];
    assert InvAt(max, c, k.task.name) && LiveFor(c, i, k.task.name);
    WorkOk(max, c.world, k, choice);
    var (w', k') := Work(max, c.world, k, choice);
    AdvanceKeeps(max, c, i, w', k');
  }

  lemma CancelKeeps(max: nat, c: Core, name: string)
    requires Inv(max, c)
    ensures InvAt(max, c.(cancelled := true), name)
  {
    assert InvAt(max, c, name);
    var c' := c.(cancelled := true);
    forall i, j | LiveFor(c', i, name) && LiveFor(c', j, name) ensures i == j {
      assert LiveFor(c, i, name) && LiveFor(c, j, name);
    }
    forall i | LiveFor(c', i, name) ensures WorkerOk(max, c'.world, c'.workers[i]) {
      assert LiveFor(c, i, name);
    }
  }

  lemma StepKeeps(max: nat, c: Core, step: Step)
    requires max >= 1 && Inv(max, c) && Enabled(c, step)
    ensures Inv(max, Next(max, c, step))
  {
    var c' := Next(max, c, step);
    StepKeepsFiled(max, c, step);
    forall name ensures InvAt(max, c', name) {
      if step.Cancel? {
        CancelKeeps(max, c, name);
      } else if name == Subject(c, step) {
        IdStays(max, c, step);
        assert InvAt(max, c, name);
        if step.Advance? {
          WorkKeeps(max, c, step.worker, step.choice);
        } else {
          CallKeeps(max, c, step);
        }
      } else {
        StepElsewhere(max, c, step);
        OthersKeep(max, c, c', Subject(c, step), name);
      }
    }
  }

  /** The invariant holds in every state that any run reaches. */
  lemma {:induction false} RunKeeps(max: nat, c: Core, steps: seq<Step>)
    requires max >= 1 && Inv(max, c) && IsRun(max, c, steps)
    ensures Inv(max, Run(max, c, steps))
    decreases |steps|
  {
    if steps != [] {
      StepKeeps(max, c, steps[0]);
      RunKeeps(max, Next(max, c, steps[0]), steps[1..]);
    }
  }

  lemma EmptyInv(max: nat)
    ensures Inv(max, EMPTY)
  {
  }

  /** What two agreeing stores hold under one name, state by state. */
  predicate SameStory(w: World, name: string) {
    && (name in w.backend ==> name in w.db && w.backend[name].sizeMB == w.db[name].sizeMB)
    && (name in w.db && w.db[name].state == Available ==> name in w.backend && w.backend[name].state == Available)
    && (name in w.db && w.db[name].state == Attached ==> name in w.backend && w.backend[name].state == Attached)
    && (name in w.db && (w.db[name].state == Pending || w.db[name].state == Deleted) ==> name !in w.backend)
  }

  /**
   From empty stores on, whatever fails and however calls and workers interleave: the backend
   holds nothing without a record, settled records say what it holds, and no volume ever has
   two live workers.
   */
  lemma StoresAlwaysAgree(max: nat, steps: seq<Step>, name: string)
    requires max >= 1 && IsRun(max, EMPTY, steps)
    ensures SameStory(Run(max, EMPTY, steps).world, name)
    ensures forall i, j | LiveFor(Run(max, EMPTY, steps), i, name) && LiveFor(Run(max, EMPTY, steps), j, name) :: i == j
  {
    EmptyInv(max);
    RunKeeps(max, EMPTY, steps);
    assert InvAt(max, Run(max, EMPTY, steps), name);
  }
}
