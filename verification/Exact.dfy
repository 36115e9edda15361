/**
 Without DB faults and cancellation, a volume is in an in-progress or failed state
 exactly when a worker is alive for it, and the worker's operation and stage tell which.
 Every worker stage spends a budget, so without new requests the system drains.
 */
module Exact {
  import opened Storage
  import opened Fsm
  import opened Lifecycle
  import opened Engine
  import opened Filing
  import opened Agreement

  /** A step on which the database works and the system is not shutting down. */
  predicate Sound(step: Step) {
    match step
    case Create(_, _, _, _, f) => f == NO_FAULTS
    case Attach(_, _, f) => f == NO_FAULTS
    case Release(_, _, f) => f == NO_FAULTS
    case Reconcile(_, _, f) => f == NO_FAULTS
    case Advance(_, choice) => choice.faults == NO_FAULTS
    case Cancel => false
  }

  ghost predicate SoundRun(steps: seq<Step>) {
    forall step <- steps :: Sound(step)
  }

  /** The DB state that goes with a worker's stage. */
  function StageState(k: Worker): State {
    if k.pc.Exhausted? || k.pc.Waiting? || k.pc.Retrying? then Broken(k.task.kind) else Busy(k.task.kind)
  }

  ghost predicate Served(c: Core, name: string) {
    exists i :: LiveFor(c, i, name)
  }

  ghost predicate ExactAt(c: Core, name: string) {
    && (forall i | LiveFor(c, i, name) :: name in c.world.db && c.world.db[name].state == StageState(c.workers[i]))
    && (name in c.world.db && IsTransitional(c.world.db[name].state) ==> Served(c, name))
  }

  ghost predicate Exactly(c: Core) {
    !c.cancelled && forall name :: ExactAt(c, name)
  }

  lemma OtherStaysExact(c: Core, c': Core, subject: string, name: string)
    requires Elsewhere(c, c', subject) && name != subject && ExactAt(c, name)
    ensures ExactAt(c', name)
  {
    if i :| LiveFor(c, i, name) {
      assert LiveFor(c', i, name);
    }
  }

  /** One event moves the stored record along its edge of the table, or leaves it alone. */
  lemma ApplyMoves(w: World, v: Volume, event: Event, f: Faults)
    requires v.name in w.db
    ensures var o := ApplyEvent(w, v, event, f);
            && v.name in o.world.db
            && (o.failure.None? ==> Transition(v.state, event) == Some(o.world.db[v.name].state))
            && (o.world.db[v.name] == w.db[v.name] || Transition(v.state, event) == Some(o.world.db[v.name].state))
            && (f == NO_FAULTS ==> (o.failure.None? <==> CanTransition(v.state, event)))
  {
  }

  /** The edges of one operation. */
  lemma Edges(kind: Kind)
    ensures Transition(Busy(kind), Success(kind)) == Some(Target(kind))
    ensures Transition(Busy(kind), EventError) == Some(Broken(kind))
    ensures Transition(Broken(kind), EventRetry) == Some(Busy(kind))
    ensures Transition(Broken(kind), EventFail) == Some(Error)
    ensures !CanTransition(Broken(kind), Success(kind)) && !CanTransition(Broken(kind), EventError)
    ensures !CanTransition(Busy(kind), EventRetry) && !CanTransition(Busy(kind), EventFail)
    ensures Busy(kind) != Broken(kind)
  {
  }

  /** A sound stage moves the record to the state of the next stage, or finishes in a settled state. */
  lemma SoundWork(max: nat, w: World, k: Worker, choice: Choice)
    requires WorkerOk(max, w, k) && w.db[k.task.name].name == k.task.name
    requires w.db[k.task.name].state == StageState(k) && !k.pc.Done? && choice.faults == NO_FAULTS && !choice.stop
    ensures var (w', k') := Work(max, w, k, choice);
            && k'.task == k.task
            && k.task.name in w'.db
            && var s := w'.db[k.task.name].state;
               if k'.pc.Done? then s == (if k.pc.Succeeded? then Target(k.task.kind) else Error)
               else s == StageState(k')
  {
    hide ApplyEvent, Fits, ShapeOf, Transition, Busy, Broken, Success, Target;
    Edges(k.task.kind);
    var v := w.db[k.task.name];
    match k.pc
    case Succeeded => ApplyMoves(w, PostSuccess(v, k.task.kind), Success(k.task.kind), choice.faults);
    case Failed => ApplyMoves(w, v, EventError, choice.faults);
    case Exhausted => ApplyMoves(w, v, EventFail, choice.faults);
    case Retrying => ApplyMoves(w, v, EventRetry, choice.faults);
    case _ =>
  }

  lemma AdvanceStaysExact(max: nat, c: Core, i: nat, choice: Choice)
    requires Inv(max, c) && Exactly(c) && Enabled(c, Advance(i, choice)) && Sound(Advance(i, choice))
    ensures ExactAt(Next(max, c, Advance(i, choice)), c.workers[i].task.name)
  {
    var k := c.workers[i];
    var n := k.task.name;
    var c' := Next(max, c, Advance(i, choice));
    assert InvAt(max, c, n) && ExactAt(c, n) && LiveFor(c, i, n);
    SoundWork(max, c.world, k, choice);
    forall j | LiveFor(c', j, n) ensures j == i {
      assert LiveFor(c, j, n);
    }
    assert c'.workers[i].pc.Done? || LiveFor(c', i, n);
  }

  /** A sound API call starts a worker exactly when it leaves a rested volume in progress. */
  ghost predicate StartsExactly(w: World, r: Response, name: string) {
    && (AtRest(w, name) || (SameFor(w, r.world, name) && r.spawned.None?))
    && (AtRest(w, name) && r.spawned.None? ==> AtRest(r.world, name))
    && (r.spawned.Some? ==>
          && r.spawned.value.name == name
          && name in r.world.db
          && r.world.db[name].state == Busy(r.spawned.value.kind))
  }

  lemma RespondStaysExact(c: Core, r: Response, name: string)
    requires ExactAt(c, name) && StartsExactly(c.world, r, name)
    ensures ExactAt(Respond(c, r), name)
  {
    var c' := Respond(c, r);
    forall i | LiveFor(c', i, name) && i < |c.workers| ensures LiveFor(c, i, name) && c'.workers[i] == c.workers[i] {
      assert c'.workers[i] == c.workers[i];
    }
    if i :| LiveFor(c, i, name) {
      assert LiveFor(c', i, name);
    }
    if r.spawned.Some? {
      assert LiveFor(c', |c.workers|, name);
    }
  }

  lemma BirthsAside(c: Core, born: map<string, State>, name: string)
    requires ExactAt(c, name)
    ensures ExactAt(c.(born := born), name)
  {
    if i :| LiveFor(c, i, name) {
      assert LiveFor(c.(born := born), i, name);
    }
  }

  lemma CreateStaysExact(max: nat, c: Core, step: Step)
    requires Inv(max, c) && Exactly(c) && Enabled(c, step) && Sound(step) && step.Create?
    ensures ExactAt(Next(max, c, step), step.name)
  {
    assert InvAt(max, c, step.name) && ExactAt(c, step.name);
    var r := Lifecycle.CreateVolume(c.world, step.name, step.sizeMB, step.id, step.backend, step.faults);
    RespondStaysExact(c, r, step.name);
    BirthsAside(Respond(c, r), Next(max, c, step).born, step.name);
  }

  lemma ReleaseStarts(w: World, name: string, kind: Kind)
    requires (kind.DetachOp? || kind.DeleteOp?) && (name in w.db ==> w.db[name].name == name)
    ensures StartsExactly(w, Lifecycle.ReleaseVolume(w, name, kind, NO_FAULTS), name)
  {
  }

  lemma AttachStarts(w: World, name: string, nodeID: string)
    requires name in w.db ==> w.db[name].name == name
    ensures StartsExactly(w, Lifecycle.AttachVolume(w, name, nodeID, NO_FAULTS), name)
  {
  }

  lemma ReconcileStarts(w: World, name: string, reachable: bool)
    requires name in w.db ==> w.db[name].name == name
    ensures StartsExactly(w, Lifecycle.ReconcileVolume(w, name, reachable, NO_FAULTS), name)
  {
  }

  lemma RequestStaysExact(max: nat, c: Core, step: Step)
    requires Inv(max, c) && Exactly(c) && Enabled(c, step) && Sound(step)
    requires step.Attach? || step.Release? || step.Reconcile?
    ensures ExactAt(Next(max, c, step), step.name)
  {
    assert InvAt(max, c, step.name) && ExactAt(c, step.name);
    match step
    case Attach(name, nodeID, f) =>
      AttachStarts(c.world, name, nodeID);
      RespondStaysExact(c, Lifecycle.AttachVolume(c.world, name, nodeID, f), name);
    case Release(name, kind, f) =>
      ReleaseStarts(c.world, name, kind);
      RespondStaysExact(c, Lifecycle.ReleaseVolume(c.world, name, kind, f), name);
    case Reconcile(name, reachable, f) =>
      ReconcileStarts(c.world, name, reachable);
      RespondStaysExact(c, Lifecycle.ReconcileVolume(c.world, name, reachable, f), name);
  }

  lemma StepStaysExact(max: nat, c: Core, step: Step)
    requires Inv(max, c) && Exactly(c) && Enabled(c, step) && Sound(step)
    ensures Exactly(Next(max, c, step))
  {
    forall name ensures ExactAt(Next(max, c, step), name) {
      assert ExactAt(c, name);
      if name != Subject(c, step) {
        StepElsewhere(max, c, step);
        OtherStaysExact(c, Next(max, c, step), Subject(c, step), name);
      } else if step.Advance? {
        AdvanceStaysExact(max, c, step.worker, step.choice);
      } else if step.Create? {
        CreateStaysExact(max, c, step);
      } else {
        RequestStaysExact(max, c, step);
      }
    }
  }

  lemma {:induction false} RunStaysExact(max: nat, c: Core, steps: seq<Step>)
    requires max >= 1 && Inv(max, c) && Exactly(c) && IsRun(max, c, steps) && SoundRun(steps)
    ensures Inv(max, Run(max, c, steps)) && Exactly(Run(max, c, steps))
    decreases |steps|
  {
    if steps != [] {
      StepKeeps(max, c, steps[0]);
      StepStaysExact(max, c, steps[0]);
      RunStaysExact(max, Next(max, c, steps[0]), steps[1..]);
    }
  }

  /** One worker exactly while the volume is transitional, in every sound run from the empty system. */
  lemma OneWorkerExactlyWhileTransitional(max: nat, steps: seq<Step>, name: string)
    requires max >= 1 && IsRun(max, EMPTY, steps) && SoundRun(steps)
    ensures var c := Run(max, EMPTY, steps);
            && (forall i, j | LiveFor(c, i, name) && LiveFor(c, j, name) :: i == j)
            && ((name in c.world.db && IsTransitional(c.world.db[name].state)) <==> exists i :: LiveFor(c, i, name))
            && (forall i | LiveFor(c, i, name) :: c.world.db[name].state == StageState(c.workers[i]))
  {
    EmptyInv(max);
    RunStaysExact(max, EMPTY, steps);
    var c := Run(max, EMPTY, steps);
    assert InvAt(max, c, name) && ExactAt(c, name);
  }

  // ----- Draining -----

  /** How many stages of the current attempt can still follow. */
  function StagesLeft(pc: Pc): nat {
    match pc
    case Done => 0
    case Exhausted => 1
    case Succeeded => 1
    case Retrying => 1
    case Waiting => 2
    case Failed => 3
    case Calling => 4
    case Check => 5
  }

  /** A bound on the stages a worker has left: five for each attempt after this one, and the rest of this one. */
  function Budget(max: nat, k: Worker): nat {
    if k.pc.Done? then 0 else StagesLeft(k.pc) + if k.attempt < max then 5 * (max - k.attempt) else 0
  }

  function TotalBudget(max: nat, ks: seq<Worker>): nat {
    if ks == [] then 0 else TotalBudget(max, ks[..|ks| - 1]) + Budget(max, ks[|ks| - 1])
  }

  lemma {:induction false} BudgetAfter(max: nat, ks: seq<Worker>, i: nat, k: Worker)
    requires i < |ks|
    ensures TotalBudget(max, ks[i := k]) == TotalBudget(max, ks) - Budget(max, ks[i]) + Budget(max, k)
    decreases |ks|
  {
    var front := ks[..|ks| - 1];
    if i < |ks| - 1 {
      assert ks[i := k][..|ks| - 1] == front[i := k];
      BudgetAfter(max, front, i, k);
    } else {
      assert ks[i := k][..|ks| - 1] == front;
    }
  }

  /** Every stage spends budget, whatever the environment does. */
  lemma WorkSpends(max: nat, w: World, k: Worker, choice: Choice)
    requires WorkerOk(max, w, k) && !k.pc.Done?
    ensures Budget(max, Work(max, w, k, choice).1) < Budget(max, k)
  {
  }

  ghost predicate OnlyWork(steps: seq<Step>) {
    forall step <- steps :: step.Advance?
  }

  /** With no new requests, any interleaving of workers is at most as long as their total budget. */
  lemma {:induction false} RunsDrain(max: nat, c: Core, steps: seq<Step>)
    requires max >= 1 && Inv(max, c) && IsRun(max, c, steps) && OnlyWork(steps)
    ensures |steps| + TotalBudget(max, Run(max, c, steps).workers) <= TotalBudget(max, c.workers)
    decreases |steps|
  {
    if steps != [] {
      var i, choice := steps[0].worker, steps[0].choice;
      var k := c.workers[i];
      assert InvAt(max, c, k.task.name) && LiveFor(c, i, k.task.name);
      WorkSpends(max, c.world, k, choice);
      BudgetAfter(max, c.workers, i, Work(max, c.world, k, choice).1);
      StepKeeps(max, c, steps[0]);
      RunsDrain(max, Next(max, c, steps[0]), steps[1..]);
    }
  }

  /** A worker can always take its next stage: nothing ever blocks the drain. */
  lemma LiveWorkersCanAdvance(c: Core, i: nat)
    requires Live(c, i)
    ensures Enabled(c, Advance(i, Choice(c.cancelled, Truthful, "", NO_FAULTS)))
  {
  }

  lemma {:induction false} NobodyLeft(max: nat, ks: seq<Worker>)
    requires forall k <- ks :: k.pc.Done?
    ensures TotalBudget(max, ks) == 0
  {
    if ks != [] {
      NobodyLeft(max, ks[..|ks| - 1]);
    }
  }

  /** From every state the workers can be run to their end, whether or not the system is shutting down. */
  lemma {:induction false} DrainExists(max: nat, c: Core) returns (steps: seq<Step>)
    requires max >= 1 && Inv(max, c)
    ensures IsRun(max, c, steps) && OnlyWork(steps) && TotalBudget(max, Run(max, c, steps).workers) == 0
    decreases TotalBudget(max, c.workers)
  {
    if i :| Live(c, i) {
      var step := Advance(i, Choice(c.cancelled, Truthful, "", NO_FAULTS));
      LiveWorkersCanAdvance(c, i);
      assert InvAt(max, c, c.workers[i].task.name) && LiveFor(c, i, c.workers[i].task.name);
      WorkSpends(max, c.world, c.workers[i], step.choice);
      BudgetAfter(max, c.workers, i, Work(max, c.world, c.workers[i], step.choice).1);
      StepKeeps(max, c, step);
      var rest := DrainExists(max, Next(max, c, step));
      steps := [step] + rest;
    } else {
      steps := [];
      forall k | k in c.workers ensures k.pc.Done? {
        var i :| 0 <= i < |c.workers| && c.workers[i] == k;
        assert !Live(c, i);
      }
      NobodyLeft(max, c.workers);
    }
  }

  /** A volume that has come to rest. */
  predicate Settled(s: State) {
    s == Pending || s == Available || s == Attached || s == Deleted || s == Error
  }

  /** Once no worker can move, every volume of a sound run is settled. */
  lemma DrainedMeansSettled(max: nat, c: Core)
    requires Exactly(c) && (forall i :: !Live(c, i))
    ensures forall name <- c.world.db :: Settled(c.world.db[name].state)
  {
    forall name | name in c.world.db ensures Settled(c.world.db[name].state) {
      assert ExactAt(c, name);
    }
  }

  /** Without faults or cancellation, whenever the workers have drained, every volume has come to rest. */
  lemma SoundRunsSettle(max: nat, steps: seq<Step>)
    requires max >= 1 && IsRun(max, EMPTY, steps) && SoundRun(steps)
    requires TotalBudget(max, Run(max, EMPTY, steps).workers) == 0
    ensures forall name <- Run(max, EMPTY, steps).world.db :: Settled(Run(max, EMPTY, steps).world.db[name].state)
  {
    EmptyInv(max);
    RunStaysExact(max, EMPTY, steps);
    var c := Run(max, EMPTY, steps);
    forall i ensures !Live(c, i) {
      if Live(c, i) {
        BudgetAfter(max, c.workers, i, c.workers[i].(pc := Done));
      }
    }
    DrainedMeansSettled(max, c);
  }

  /** The states a volume can be in while, or right after, a worker of some operation serves it. */
  predicate OwnStates(kind: Kind, s: State) {
    s == Busy(kind) || s == Broken(kind) || s == Target(kind) || s == Error
  }

  /** One edge of the table, or no change at all. */
  predicate EdgeOrNone(before: State, after: State, event: Event) {
    after == before || Transition(before, event) == Some(after)
  }

  /** The event a stage applies, if any. */
  function StageEvent(k: Worker): Event {
    match k.pc
    case Succeeded => Success(k.task.kind)
    case Failed => EventError
    case Exhausted => EventFail
    case _ => EventRetry
  }

  /**
   Worker safety under arbitrary DB faults and cancellation: a stage either leaves the
   record alone or moves it along one edge of the table, within the operation's own
   states; and a finished worker leaves its volume in such a state.
   */
  lemma WorkIsSafe(max: nat, w: World, k: Worker, choice: Choice)
    requires WorkerOk(max, w, k) && w.db[k.task.name].name == k.task.name
    ensures var (w', k') := Work(max, w, k, choice);
            && k.task.name in w'.db
            && EdgeOrNone(w.db[k.task.name].state, w'.db[k.task.name].state, StageEvent(k))
            && OwnStates(k.task.kind, w'.db[k.task.name].state)
            && (!k'.pc.Done? ==> IsTransitional(w'.db[k.task.name].state))
  {
    hide ApplyEvent, Fits, ShapeOf, Transition, Success, Target;
    Edges(k.task.kind);
    var v := w.db[k.task.name];
    match k.pc
    case Succeeded => ApplyMoves(w, PostSuccess(v, k.task.kind), Success(k.task.kind), choice.faults);
    case Failed => ApplyMoves(w, v, EventError, choice.faults);
    case Exhausted => ApplyMoves(w, v, EventFail, choice.faults);
    case Retrying => ApplyMoves(w, v, EventRetry, choice.faults);
    case _ =>
  }
}
