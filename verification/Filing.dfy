/**
 How records are filed, and what a step leaves alone: it touches one volume, never changes
 an ID, and files a new record under a fresh one.
 */
module Filing {
  import opened Storage
  import opened Fsm
  import opened Lifecycle
  import opened Engine

  /** The record is filed under its own name, with a known ID. */
  predicate FiledAt(c: Core, name: string) {
    name in c.world.db ==> c.world.db[name].name == name && c.world.db[name].id in c.born
  }

  /** No two records share an ID. */
  ghost predicate DistinctIds(db: map<string, Volume>) {
    forall m, n | m in db && n in db && m != n :: db[m].id != db[n].id
  }

  predicate LiveFor(c: Core, i: int, name: string) {
    Live(c, i) && c.workers[i].task.name == name
  }

  /**
   Records are filed under their own names and distinct known IDs, and whoever works on a
   volume works on a record.  This much needs no agreement between the stores.
   */
  ghost predicate Filed(c: Core) {
    && DistinctIds(c.world.db)
    && (forall name :: FiledAt(c, name))
    && (forall i | Live(c, i) :: Employed(c, i))
  }

  predicate Employed(c: Core, i: int)
    requires Live(c, i)
  {
    c.workers[i].task.name in c.world.db
  }

  // ----- What a step leaves alone -----

  /** The stores agree everywhere but under one name. */
  ghost predicate OnlyTouches(w: World, w': World, name: string) {
    && (forall n | n != name :: n in w.db <==> n in w'.db)
    && (forall n | n != name && n in w.db :: w.db[n] == w'.db[n])
    && (forall n | n != name :: n in w.backend <==> n in w'.backend)
    && (forall n | n != name && n in w.backend :: w.backend[n] == w'.backend[n])
  }

  /** The name a step is about. */
  function Subject(c: Core, step: Step): string
    requires Enabled(c, step) && !step.Cancel?
  {
    if step.Advance? then c.workers[step.worker].task.name else step.name
  }

  lemma StepIsLocal(max: nat, c: Core, step: Step)
    requires Filed(c) && Enabled(c, step) && !step.Cancel?
    ensures OnlyTouches(c.world, Next(max, c, step).world, Subject(c, step))
  {
    assert FiledAt(c, Subject(c, step));
    match step
    case Create(name, sizeMB, id, backend, f) => CreateIsLocal(c.world, name, sizeMB, id, backend, f);
    case Attach(name, nodeID, f) => AttachIsLocal(c.world, name, nodeID, f);
    case Release(name, kind, f) => ReleaseIsLocal(c.world, name, kind, f);
    case Reconcile(name, reachable, f) => ReconcileIsLocal(c.world, name, reachable, f);
    case Advance(i, choice) => WorkIsLocal(max, c.world, c.workers[i], choice);
  }

  lemma CreateIsLocal(w: World, name: string, sizeMB: int, id: string, backend: string, f: Faults)
    ensures OnlyTouches(w, Lifecycle.CreateVolume(w, name, sizeMB, id, backend, f).world, name)
  {
  }

  lemma ReleaseIsLocal(w: World, name: string, kind: Kind, f: Faults)
    requires name in w.db ==> w.db[name].name == name
    ensures OnlyTouches(w, Lifecycle.ReleaseVolume(w, name, kind, f).world, name)
  {
  }

  lemma ReconcileIsLocal(w: World, name: string, reachable: bool, f: Faults)
    requires name in w.db ==> w.db[name].name == name
    ensures OnlyTouches(w, Lifecycle.ReconcileVolume(w, name, reachable, f).world, name)
  {
  }

  lemma AttachIsLocal(w: World, name: string, nodeID: string, f: Faults)
    requires name in w.db ==> w.db[name].name == name
    ensures OnlyTouches(w, Lifecycle.AttachVolume(w, name, nodeID, f).world, name)
  {
  }

  lemma CallIsLocal(w: World, task: Task, reply: Reply, uuid: string)
    ensures OnlyTouches(w, Call(w, task, reply, uuid).0, task.name)
  {
  }

  lemma ApplyIsLocal(w: World, v: Volume, event: Event, f: Faults)
    ensures OnlyTouches(w, ApplyEvent(w, v, event, f).world, v.name)
  {
  }

  lemma WorkIsLocal(max: nat, w: World, k: Worker, choice: Choice)
    requires k.task.name in w.db ==> w.db[k.task.name].name == k.task.name
    ensures OnlyTouches(w, Work(max, w, k, choice).0, k.task.name)
  {
    CallIsLocal(w, k.task, choice.reply, choice.uuid);
    if k.task.name in w.db {
      var v := w.db[k.task.name];
      ApplyIsLocal(w, PostSuccess(v, k.task.kind), Success(k.task.kind), choice.faults);
      ApplyIsLocal(w, v, EventError, choice.faults);
      ApplyIsLocal(w, v, EventFail, choice.faults);
      ApplyIsLocal(w, v, EventRetry, choice.faults);
    }
  }

  /** Nothing changes under any other name: neither the stores, nor the births, nor the live workers. */
  ghost predicate Elsewhere(c: Core, c': Core, name: string) {
    && OnlyTouches(c.world, c'.world, name)
    && (forall id <- c.born :: id in c'.born && c'.born[id] == c.born[id])
    && (forall n, i | n != name :: LiveFor(c', i, n) <==> LiveFor(c, i, n))
    && (forall n, i | n != name && LiveFor(c, i, n) :: c'.workers[i] == c.workers[i])
  }

  lemma StepElsewhere(max: nat, c: Core, step: Step)
    requires Filed(c) && Enabled(c, step) && !step.Cancel?
    ensures Elsewhere(c, Next(max, c, step), Subject(c, step))
  {
    StepIsLocal(max, c, step);
    if !step.Advance? {
      SpawnsItself(c, step);
    }
  }

  /** A call starts a worker for the volume it is about, and for no other. */
  lemma SpawnsItself(c: Core, step: Step)
    requires Enabled(c, step) && !step.Cancel? && !step.Advance?
    ensures var c' := Next(0, c, step);
            && |c'.workers| >= |c.workers| && c'.workers[..|c.workers|] == c.workers
            && forall i | |c.workers| <= i < |c'.workers| :: c'.workers[i].task.name == step.name
  {
  }

  predicate IdKept(w: World, w': World, name: string, unused: Option<string>) {
    && (name in w.db ==> name in w'.db)
    && (name in w'.db ==>
      && w'.db[name].name == name
      && if name in w.db then w'.db[name].id == w.db[name].id else unused == Some(w'.db[name].id))
  }

  function FreshId(step: Step): Option<string> {
    if step.Create? then Some(step.id) else None
  }

  lemma CallKeepsId(c: Core, step: Step)
    requires Enabled(c, step) && !step.Cancel? && !step.Advance? && FiledAt(c, step.name)
    ensures IdKept(c.world, Next(0, c, step).world, step.name, FreshId(step))
  {
  }

  lemma WorkKeepsId(max: nat, w: World, k: Worker, choice: Choice)
    requires k.task.name in w.db && w.db[k.task.name].name == k.task.name
    ensures IdKept(w, Work(max, w, k, choice).0, k.task.name, None)
  {
  }

  /** A step never changes the ID of a record, and files a new record under the fresh ID. */
  lemma IdStays(max: nat, c: Core, step: Step)
    requires Filed(c) && Enabled(c, step) && !step.Cancel?
    ensures IdKept(c.world, Next(max, c, step).world, Subject(c, step), FreshId(step))
  {
    assert FiledAt(c, Subject(c, step));
    if step.Advance? {
      assert Employed(c, step.worker);
      WorkKeepsId(max, c.world, c.workers[step.worker], step.choice);
    } else {
      CallKeepsId(c, step);
    }
  }

  lemma IdsStayDistinct(max: nat, c: Core, step: Step)
    requires Filed(c) && Enabled(c, step)
    ensures DistinctIds(Next(max, c, step).world.db)
  {
    if !step.Cancel? {
      var n := Subject(c, step);
      var w' := Next(max, c, step).world;
      StepIsLocal(max, c, step);
      assert FiledAt(c, n);
      IdStays(max, c, step);
      forall m | m in w'.db && n in w'.db && m != n ensures w'.db[m].id != w'.db[n].id {
        assert FiledAt(c, m);
      }
    }
  }

  /** Nobody is employed for a volume without a record, and a new record's ID is known. */
  lemma CallEmploys(max: nat, c: Core, step: Step)
    requires Enabled(c, step) && !step.Cancel? && !step.Advance? && FiledAt(c, step.name)
    ensures var c' := Next(max, c, step);
            && FiledAt(c', step.name)
            && (|c'.workers| > |c.workers| ==> step.name in c'.world.db)
  {
  }

  lemma StepKeepsFiled(max: nat, c: Core, step: Step)
    requires Filed(c) && Enabled(c, step)
    ensures Filed(Next(max, c, step))
  {
    var c' := Next(max, c, step);
    IdsStayDistinct(max, c, step);
    forall name ensures FiledAt(c', name) {
      assert FiledAt(c, name);
      if !step.Cancel? {
        StepElsewhere(max, c, step);
        IdStays(max, c, step);
        if !step.Advance? {
          CallEmploys(max, c, step);
        }
      }
    }
    forall i | Live(c', i) ensures Employed(c', i) {
      StepKeepsEmployed(max, c, step, i);
    }
  }

  lemma StepKeepsEmployed(max: nat, c: Core, step: Step, i: int)
    requires Filed(c) && Enabled(c, step) && Live(Next(max, c, step), i)
    ensures Employed(Next(max, c, step), i)
  {
    if i < |c.workers| {
      assert Live(c, i) && Employed(c, i);
    }
    if !step.Cancel? {
      StepIsLocal(max, c, step);
      IdStays(max, c, step);
      if !step.Advance? {
        assert FiledAt(c, step.name);
        CallEmploys(max, c, step);
        SpawnsItself(c, step);
      }
    }
  }

  // ----- What never changes -----

  /** All of a record but its state and its node. */
  predicate SameVolume(a: Volume, b: Volume) {
    a.id == b.id && a.name == b.name && a.sizeMB == b.sizeMB && a.backend == b.backend
  }

  /** What was there is the same volume still; what is new is what was asked for. */
  predicate KeepsVolume(w: World, w': World, name: string, asked: Option<Volume>) {
    && (name in w.db ==> name in w'.db && SameVolume(w.db[name], w'.db[name]))
    && (name !in w.db && name in w'.db ==>
          asked.Some? && SameVolume(asked.value, w'.db[name]) && w'.db[name].nodeID == "")
  }

  function Asked(step: Step): Option<Volume> {
    if step.Create? then Some(Volume(step.id, step.name, step.sizeMB, Pending, step.backend, "")) else None
  }

  lemma CreateKeepsVolume(w: World, name: string, sizeMB: int, id: string, backend: string, f: Faults)
    ensures KeepsVolume(w, Lifecycle.CreateVolume(w, name, sizeMB, id, backend, f).world, name,
                        Some(Volume(id, name, sizeMB, Pending, backend, "")))
  {
  }

  lemma AttachKeepsVolume(w: World, name: string, nodeID: string, f: Faults)
    requires name in w.db ==> w.db[name].name == name
    ensures KeepsVolume(w, Lifecycle.AttachVolume(w, name, nodeID, f).world, name, None)
  {
  }

  lemma ReleaseKeepsVolume(w: World, name: string, kind: Kind, f: Faults)
    requires name in w.db ==> w.db[name].name == name
    ensures KeepsVolume(w, Lifecycle.ReleaseVolume(w, name, kind, f).world, name, None)
  {
  }

  lemma ReconcileKeepsVolume(w: World, name: string, reachable: bool, f: Faults)
    requires name in w.db ==> w.db[name].name == name
    ensures KeepsVolume(w, Lifecycle.ReconcileVolume(w, name, reachable, f).world, name, None)
  {
  }

  lemma CallKeepsVolume(c: Core, step: Step)
    requires Enabled(c, step) && !step.Cancel? && !step.Advance? && FiledAt(c, step.name)
    ensures KeepsVolume(c.world, Next(0, c, step).world, step.name, Asked(step))
  {
    hide KeepsVolume;
    match step
    case Create(name, sizeMB, id, backend, f) => CreateKeepsVolume(c.world, name, sizeMB, id, backend, f);
    case Attach(name, nodeID, f) => AttachKeepsVolume(c.world, name, nodeID, f);
    case Release(name, kind, f) => ReleaseKeepsVolume(c.world, name, kind, f);
    case Reconcile(name, reachable, f) => ReconcileKeepsVolume(c.world, name, reachable, f);
  }

  lemma WorkKeepsVolume(max: nat, w: World, k: Worker, choice: Choice)
    requires k.task.name in w.db && w.db[k.task.name].name == k.task.name
    ensures KeepsVolume(w, Work(max, w, k, choice).0, k.task.name, None)
  {
  }

  lemma StepKeepsVolumes(max: nat, c: Core, step: Step, name: string)
    requires Filed(c) && Enabled(c, step)
    ensures KeepsVolume(c.world, Next(max, c, step).world, name, Asked(step))
  {
    assert FiledAt(c, name);
    if !step.Cancel? {
      StepIsLocal(max, c, step);
      if step.Advance? {
        assert Employed(c, step.worker) && FiledAt(c, Subject(c, step));
        WorkKeepsVolume(max, c.world, c.workers[step.worker], step.choice);
      } else if step.name == name {
        CallKeepsVolume(c, step);
      }
    }
  }

  /** In every run, whatever fails, a record keeps its ID, name, size and backend for ever. */
  lemma {:induction false} RunKeepsVolumes(max: nat, c: Core, steps: seq<Step>, name: string)
    requires Filed(c) && IsRun(max, c, steps) && name in c.world.db
    ensures name in Run(max, c, steps).world.db && SameVolume(c.world.db[name], Run(max, c, steps).world.db[name])
    decreases |steps|
  {
    if steps != [] {
      StepKeepsFiled(max, c, steps[0]);
      StepKeepsVolumes(max, c, steps[0], name);
      RunKeepsVolumes(max, Next(max, c, steps[0]), steps[1..], name);
    }
  }
}
