/**
 What is published, under any faults, and how much of it can pass before a terminal state.
 Publishing does not depend on the audit log.
 */
module Feed {
  import opened Storage
  import opened Fsm
  import opened Lifecycle
  import opened Engine
  import opened Filing
  import opened Agreement
  import Exact

  predicate Terminal(s: State) {
    s == Available || s == Attached || s == Deleted || s == Error
  }

  /** No update takes effect while its caller is told that it failed. */
  predicate HonestFaults(f: Faults) {
    !f.update.Unacknowledged?
  }

  predicate Honest(step: Step) {
    match step
    case Create(_, _, _, _, f) => HonestFaults(f)
    case Attach(_, _, f) => HonestFaults(f)
    case Release(_, _, f) => HonestFaults(f)
    case Reconcile(_, _, f) => HonestFaults(f)
    case Advance(_, choice) => HonestFaults(choice.faults)
    case Cancel => true
  }

  /** What the step published, if anything. */
  function News(w: World, w': World): Option<StateEvent> {
    if |w.feed| < |w'.feed| then Some(w'.feed[|w.feed|]) else None
  }

  /** At most one event, under the given name, telling the record's new state. */
  predicate Tells(w: World, w': World, name: string) {
    match News(w, w')
    case None => w'.feed == w.feed
    case Some(e) =>
      && w'.feed == w.feed + [e]
      && e.name == name && name in w'.db && w'.db[name].state == e.state && e.state != Pending
  }

  lemma ApplyTells(w: World, v: Volume, event: Event, f: Faults)
    ensures Tells(w, ApplyEvent(w, v, event, f).world, v.name)
  {
  }

  lemma WorkTells(max: nat, w: World, k: Worker, choice: Choice)
    requires k.task.name in w.db && w.db[k.task.name].name == k.task.name
    ensures Tells(w, Work(max, w, k, choice).0, k.task.name)
  {
    hide ApplyEvent, Serve;
    var v := w.db[k.task.name];
    match k.pc
    case Succeeded => ApplyTells(w, PostSuccess(v, k.task.kind), Success(k.task.kind), choice.faults);
    case Failed => ApplyTells(w, v, EventError, choice.faults);
    case Exhausted => ApplyTells(w, v, EventFail, choice.faults);
    case Retrying => ApplyTells(w, v, EventRetry, choice.faults);
    case _ =>
  }

  lemma CreateTells(w: World, name: string, sizeMB: int, id: string, backend: string, f: Faults)
    ensures Tells(w, Lifecycle.CreateVolume(w, name, sizeMB, id, backend, f).world, name)
  {
  }

  lemma AttachTells(w: World, name: string, nodeID: string, f: Faults)
    requires name in w.db ==> w.db[name].name == name
    ensures Tells(w, Lifecycle.AttachVolume(w, name, nodeID, f).world, name)
  {
  }

  lemma ReleaseTells(w: World, name: string, kind: Kind, f: Faults)
    requires name in w.db ==> w.db[name].name == name
    ensures Tells(w, ReleaseVolume(w, name, kind, f).world, name)
  {
  }

  lemma StepTells(max: nat, c: Core, step: Step)
    requires Filed(c) && Enabled(c, step) && !step.Cancel?
    ensures Tells(c.world, Next(max, c, step).world, Subject(c, step))
  {
    assert FiledAt(c, Subject(c, step));
    match step
    case Create(name, sizeMB, id, backend, f) => CreateTells(c.world, name, sizeMB, id, backend, f);
    case Attach(name, nodeID, f) => AttachTells(c.world, name, nodeID, f);
    case Release(name, kind, f) => ReleaseTells(c.world, name, kind, f);
    case Reconcile(name, reachable, f) => ReconcileIsSilent(c.world, name, reachable, f);
    case Advance(i, choice) =>
      assert Employed(c, i);
      WorkTells(max, c.world, c.workers[i], choice);
  }

  // ----- Changes that nobody is told of -----

  /** Whatever it does to the record, a reconcile publishes nothing. */
  lemma ReconcileIsSilent(w: World, name: string, reachable: bool, f: Faults)
    ensures Lifecycle.ReconcileVolume(w, name, reachable, f).world.feed == w.feed
  {
  }

  /** A record that is there before and after has another state. */
  predicate Moves(w: World, w': World, name: string) {
    name in w.db && name in w'.db && w'.db[name].state != w.db[name].state
  }

  lemma CallMovesSilentlyExactlyWhen(max: nat, c: Core, step: Step)
    requires Filed(c) && Enabled(c, step) && !step.Cancel? && !step.Advance?
    ensures var w' := Next(max, c, step).world;
            Moves(c.world, w', step.name) ==>
              (News(c.world, w').None? <==> step.Reconcile? || FaultsOf(step).update.Unacknowledged?)
  {
    assert FiledAt(c, step.name);
  }

  lemma WorkMovesSilentlyExactlyWhen(max: nat, w: World, k: Worker, choice: Choice)
    requires k.task.name in w.db && w.db[k.task.name].name == k.task.name
    ensures var w' := Work(max, w, k, choice).0;
            Moves(w, w', k.task.name) ==> (News(w, w').None? <==> choice.faults.update.Unacknowledged?)
  {
  }

  /**
   A step that changes a volume's state goes unpublished exactly when it is a reconcile, or its
   update took effect while it was reported as failed.
   */
  lemma MovesSilentlyExactlyWhen(max: nat, c: Core, step: Step)
    requires Filed(c) && Enabled(c, step) && !step.Cancel?
    ensures var w', n := Next(max, c, step).world, Subject(c, step);
            Moves(c.world, w', n) ==>
              (News(c.world, w').None? <==> step.Reconcile? || FaultsOf(step).update.Unacknowledged?)
  {
    if step.Advance? {
      assert Employed(c, step.worker) && FiledAt(c, Subject(c, step));
      WorkMovesSilentlyExactlyWhen(max, c.world, c.workers[step.worker], step.choice);
    } else {
      CallMovesSilentlyExactlyWhen(max, c, step);
    }
  }

  // ----- No slow subscriber loses the closing event -----

  /** The most events a subscriber can have been sent, without a terminal one, at a worker's stage. */
  function Reach(k: Worker, s: State): nat
    requires k.attempt >= 1
  {
    if s == Busy(k.task.kind) then 2 * k.attempt - 1
    else if k.pc.Exhausted? || k.pc.Waiting? || k.pc.Retrying? then 2 * k.attempt
    else 2 * k.attempt - 2
  }

  /** How many events can have been published since some moment without a terminal one among them. */
  ghost predicate Bounded(max: nat, c: Core, name: string, sent: nat) {
    && sent <= 2 * max
    && (AtRest(c.world, name) ==> sent == 0)
    && (forall i | LiveFor(c, i, name) && name in c.world.db && c.workers[i].attempt >= 1 ::
          sent <= Reach(c.workers[i], c.world.db[name].state))
  }

  /** The number of events after a step, unless the step published a terminal one. */
  predicate NoClosing(w: World, w': World) {
    News(w, w').Some? ==> !Terminal(News(w, w').value.state)
  }

  function SentAfter(w: World, w': World, sent: nat): nat {
    if News(w, w').Some? then sent + 1 else sent
  }

  /** An applied event is the news, and its state is the record's. */
  lemma ApplyNews(w: World, v: Volume, event: Event, f: Faults)
    requires HonestFaults(f) && v.name in w.db
    ensures var o := ApplyEvent(w, v, event, f);
            if o.failure.Some? then o.world == w
            else
              && CanTransition(v.state, event)
              && v.name in o.world.db
              && News(w, o.world) == Some(StateEvent(v.name, Transition(v.state, event).value, event))
              && o.world.db[v.name].state == Transition(v.state, event).value
  {
  }

  lemma LastBound(max: nat, w: World, k: Worker, choice: Choice, sent: nat)
    requires WorkerOk(max, w, k) && w.db[k.task.name].name == k.task.name && HonestFaults(choice.faults)
    requires sent <= 2 * max && sent <= Reach(k, w.db[k.task.name].state)
    requires k.pc.Succeeded? || k.pc.Exhausted?
    ensures var (w', k') := Work(max, w, k, choice);
            NoClosing(w, w') ==>
              && SentAfter(w, w', sent) <= 2 * max
              && !AtRest(w', k.task.name)
              && k'.pc.Done?
  {
    assert News(w, w).None?;
    hide ApplyEvent, Agreement.Fits, ShapeOf, News, Transition, Success, Busy, Broken;
    Exact.Edges(k.task.kind);
    var v := w.db[k.task.name];
    if k.pc.Succeeded? {
      ApplyNews(w, PostSuccess(v, k.task.kind), Success(k.task.kind), choice.faults);
    } else {
      ApplyNews(w, v, EventFail, choice.faults);
    }
  }

  lemma FailureBound(max: nat, w: World, k: Worker, choice: Choice, sent: nat)
    requires WorkerOk(max, w, k) && w.db[k.task.name].name == k.task.name && HonestFaults(choice.faults)
    requires sent <= 2 * max && sent <= Reach(k, w.db[k.task.name].state)
    requires k.pc.Failed? || k.pc.Retrying?
    ensures var (w', k') := Work(max, w, k, choice);
            NoClosing(w, w') ==>
              && SentAfter(w, w', sent) <= 2 * max
              && !AtRest(w', k.task.name)
              && (!k'.pc.Done? ==> SentAfter(w, w', sent) <= Reach(k', w'.db[k.task.name].state))
  {
    assert News(w, w).None?;
    hide ApplyEvent, Agreement.Fits, ShapeOf, News, Transition, Success, Busy, Broken;
    Exact.Edges(k.task.kind);
    var v := w.db[k.task.name];
    ApplyNews(w, v, if k.pc.Failed? then EventError else EventRetry, choice.faults);
  }

  lemma WorkBound(max: nat, w: World, k: Worker, choice: Choice, sent: nat)
    requires WorkerOk(max, w, k) && !k.pc.Done? && w.db[k.task.name].name == k.task.name && HonestFaults(choice.faults)
    requires sent <= 2 * max && sent <= Reach(k, w.db[k.task.name].state)
    ensures var (w', k') := Work(max, w, k, choice);
            NoClosing(w, w') ==>
              && SentAfter(w, w', sent) <= 2 * max
              && !AtRest(w', k.task.name)
              && (!k'.pc.Done? ==> SentAfter(w, w', sent) <= Reach(k', w'.db[k.task.name].state))
  {
    match k.pc
    case Succeeded => LastBound(max, w, k, choice, sent);
    case Exhausted => LastBound(max, w, k, choice, sent);
    case Failed => FailureBound(max, w, k, choice, sent);
    case Retrying => FailureBound(max, w, k, choice, sent);
    case _ =>
  }

  lemma AdvanceBound(max: nat, c: Core, i: nat, w': World, k': Worker, sent: nat)
    requires Live(c, i) && k'.task == c.workers[i].task && SoloAt(max, c, k'.task.name)
    requires sent <= 2 * max && !AtRest(w', k'.task.name)
    requires !k'.pc.Done? ==> k'.attempt >= 1 && sent <= Reach(k', w'.db[k'.task.name].state)
    ensures Bounded(max, c.(world := w', workers := c.workers[i := k']), k'.task.name, sent)
  {
    var n := k'.task.name;
    var c' := c.(world := w', workers := c.workers[i := k']);
    assert LiveFor(c, i, n);
    forall j | LiveFor(c', j, n) ensures j == i {
      assert LiveFor(c, j, n);
    }
  }

  /** A call publishes exactly when it starts a worker, on a volume at rest. */
  predicate ApiPublishes(w: World, r: Response, name: string) {
    match News(w, r.world)
    case None =>
      && r.spawned.None?
      && name in r.world.db && name in w.db
      && (AtRest(w, name) || r.world.db[name].state == w.db[name].state)
    case Some(e) =>
      && AtRest(w, name) && r.spawned.Some? && r.spawned.value.name == name
      && name in r.world.db && r.world.db[name].state == Busy(r.spawned.value.kind)
  }

  lemma CreatePublishes(w: World, name: string, sizeMB: int, id: string, backend: string, f: Faults)
    requires name in w.db
    ensures ApiPublishes(w, Lifecycle.CreateVolume(w, name, sizeMB, id, backend, f), name)
  {
  }

  lemma AttachPublishes(w: World, name: string, nodeID: string, f: Faults)
    requires HonestFaults(f) && name in w.db && w.db[name].name == name
    ensures ApiPublishes(w, Lifecycle.AttachVolume(w, name, nodeID, f), name)
  {
  }

  lemma ReleasePublishes(w: World, name: string, kind: Kind, f: Faults)
    requires HonestFaults(f) && name in w.db && w.db[name].name == name && (kind.DetachOp? || kind.DeleteOp?)
    ensures ApiPublishes(w, ReleaseVolume(w, name, kind, f), name)
  {
  }

  lemma ReconcilePublishes(w: World, name: string, reachable: bool, f: Faults)
    requires name in w.db && w.db[name].name == name
    ensures ApiPublishes(w, Lifecycle.ReconcileVolume(w, name, reachable, f), name)
  {
  }

  lemma RespondBound(max: nat, c: Core, r: Response, name: string, sent: nat)
    requires max >= 1 && SoloAt(max, c, name) && Bounded(max, c, name, sent) && ApiPublishes(c.world, r, name)
    ensures NoClosing(c.world, r.world) ==> Bounded(max, Respond(c, r), name, SentAfter(c.world, r.world, sent))
  {
    var c' := Respond(c, r);
    forall i | LiveFor(c', i, name) && i < |c.workers| ensures LiveFor(c, i, name) && c'.workers[i] == c.workers[i] {
      assert c'.workers[i] == c.workers[i];
    }
  }

  lemma CallBound(max: nat, c: Core, step: Step, sent: nat)
    requires max >= 1 && Inv(max, c) && Enabled(c, step) && Honest(step) && !step.Advance? && !step.Cancel?
    requires Bounded(max, c, step.name, sent) && step.name in c.world.db
    ensures var c' := Next(max, c, step);
            NoClosing(c.world, c'.world) ==> Bounded(max, c', step.name, SentAfter(c.world, c'.world, sent))
  {
    assert InvAt(max, c, step.name);
    match step
    case Create(name, sizeMB, id, backend, f) =>
      CreatePublishes(c.world, name, sizeMB, id, backend, f);
      RespondBound(max, c, Lifecycle.CreateVolume(c.world, name, sizeMB, id, backend, f), name, sent);
    case Attach(name, nodeID, f) =>
      AttachPublishes(c.world, name, nodeID, f);
      RespondBound(max, c, Lifecycle.AttachVolume(c.world, name, nodeID, f), name, sent);
    case Release(name, kind, f) =>
      ReleasePublishes(c.world, name, kind, f);
      RespondBound(max, c, ReleaseVolume(c.world, name, kind, f), name, sent);
    case Reconcile(name, reachable, f) =>
      ReconcilePublishes(c.world, name, reachable, f);
      RespondBound(max, c, Lifecycle.ReconcileVolume(c.world, name, reachable, f), name, sent);
  }

  /** A step keeps the bound at every volume, until it publishes a terminal event about it. */
  lemma StepBound(max: nat, c: Core, step: Step, name: string, sent: nat)
    requires max >= 1 && Inv(max, c) && Enabled(c, step) && Honest(step)
    requires name in c.world.db && Bounded(max, c, name, sent)
    ensures var c' := Next(max, c, step);
            var about := !step.Cancel? && Subject(c, step) == name;
            if about then NoClosing(c.world, c'.world) ==> Bounded(max, c', name, SentAfter(c.world, c'.world, sent))
            else Bounded(max, c', name, sent)
  {
    var c' := Next(max, c, step);
    if step.Cancel? {
      assert forall i | LiveFor(c', i, name) :: LiveFor(c, i, name);
    } else if Subject(c, step) != name {
      StepElsewhere(max, c, step);
    } else if step.Advance? {
      WorkStepBound(max, c, step.worker, step.choice, sent);
    } else {
      CallBound(max, c, step, sent);
    }
  }

  lemma WorkStepBound(max: nat, c: Core, i: nat, choice: Choice, sent: nat)
    requires max >= 1 && Inv(max, c) && Enabled(c, Advance(i, choice)) && HonestFaults(choice.faults)
    requires Bounded(max, c, c.workers[i].task.name, sent)
    ensures var c' := Next(max, c, Advance(i, choice));
            NoClosing(c.world, c'.world) ==>
              Bounded(max, c', c.workers[i].task.name, SentAfter(c.world, c'.world, sent))
  {
    var k := c.workers[i];
    assert InvAt(max, c, k.task.name) && LiveFor(c, i, k.task.name);
    WorkBound(max, c.world, k, choice, sent);
    WorkOk(max, c.world, k, choice);
    var (w', k') := Work(max, c.world, k, choice);
    if NoClosing(c.world, w') {
      AdvanceBound(max, c, i, w', k', SentAfter(c.world, w', sent));
    }
  }
}
