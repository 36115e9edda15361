/**
 A backend call that takes effect although its error is reported: the retries cannot
 succeed any more, the operation ends in error, and a reconcile recovers what was done.
 */
module Recovery {
  import opened Storage
  import opened Fsm
  import opened Lifecycle
  import opened Retry

  // ----- The laws of the backend -----

  /** What the backend serves: a create of a positive size under a free name; the rest by the volume's state. */
  lemma ServedExactlyWhen(held: map<string, Volume>, task: Task, uuid: string)
    ensures Serve(held, task, uuid).Some? <==>
            match task.kind
            case CreateOp => task.sizeMB > 0 && task.name !in held
            case AttachOp => task.name in held && held[task.name].state == Available
            case DetachOp => task.name in held && held[task.name].state == Attached
            case DeleteOp => task.name in held && held[task.name].state != Attached
  {
  }

  /** No call can be served twice in a row: the backend's operations are not idempotent. */
  lemma ServedOnceNeverAgain(held: map<string, Volume>, task: Task, uuid: string, again: string)
    requires Serve(held, task, uuid).Some?
    ensures Serve(Serve(held, task, uuid).value, task, again).None?
  {
  }

  /** A served call changes no other volume. */
  lemma ServeIsLocal(held: map<string, Volume>, task: Task, uuid: string)
    requires Serve(held, task, uuid).Some?
    ensures Serve(held, task, uuid).value - {task.name} == held - {task.name}
  {
  }

  /** A delete undoes a create. */
  lemma DeleteUndoesCreate(held: map<string, Volume>, create: Task, delete: Task, uuid: string)
    requires create.kind.CreateOp? && delete.kind.DeleteOp? && delete.name == create.name
    requires Serve(held, create, uuid).Some?
    ensures Serve(Serve(held, create, uuid).value, delete, "") == Some(held)
  {
    assert Serve(held, create, uuid).value - {create.name} == held;
  }

  /** A detach undoes an attach, and until then the volume can be neither deleted nor taken elsewhere. */
  lemma DetachUndoesAttach(held: map<string, Volume>, attach: Task, detach: Task)
    requires attach.kind.AttachOp? && detach.kind.DetachOp? && detach.name == attach.name
    requires Serve(held, attach, "").Some? && held[attach.name].nodeID == ""
    ensures Serve(Serve(held, attach, "").value, detach, "") == Some(held)
    ensures forall other: Task | other.name == attach.name && !other.kind.DetachOp? ::
              Serve(Serve(held, attach, "").value, other, "").None?
  {
    var v := held[attach.name];
    var w := Serve(held, attach, "").value;
    assert w[attach.name].(nodeID := "", state := Available) == v;
    assert w[attach.name := v] == held;
  }

  // ----- A lost answer -----

  /** The call of stage u is served, and reported as failed. */
  predicate LosesAnswer(max: nat, w: World, task: Task, script: Script, u: nat) {
    var (w1, k1) := Stages(max, w, Start(task), script, u);
    k1.pc.Calling? && script(u).reply.Unreported? && Serve(w1.backend, task, script(u).uuid).Some?
  }

  /** What the backend holds from then on. */
  function LostEffect(max: nat, w: World, task: Task, script: Script, u: nat): map<string, Volume>
    requires LosesAnswer(max, w, task, script, u)
  {
    Serve(Stages(max, w, Start(task), script, u).0.backend, task, script(u).uuid).value
  }

  lemma {:induction false} StagesKeepTask(max: nat, w: World, k: Worker, script: Script, t: nat)
    ensures Stages(max, w, k, script, t).1.task == k.task
  {
    if t > 0 {
      StagesKeepTask(max, w, k, script, t - 1);
    }
  }

  /** A stage whose call cannot be served changes nothing in the backend and has no success. */
  lemma StageFindsNothing(max: nat, w: World, k: Worker, c: Choice)
    ensures Serve(w.backend, k.task, c.uuid).None? && !k.pc.Succeeded? ==>
              && Work(max, w, k, c).0.backend == w.backend
              && !Work(max, w, k, c).1.pc.Succeeded?
              && !Call(w, k.task, c.reply, c.uuid).1
  {
  }

  /** Only a call changes the backend, and after the lost answer none is served. */
  lemma {:induction false} NothingSucceedsAfterwards(max: nat, w: World, task: Task, script: Script, u: nat, t: nat)
    requires LosesAnswer(max, w, task, script, u) && u < t
    ensures var (w', k') := Stages(max, w, Start(task), script, t);
            var results := Results(max, w, Start(task), script, t);
            && w'.backend == LostEffect(max, w, task, script, u)
            && !k'.pc.Succeeded?
            && results != [] && !results[|results| - 1]
    decreases t
  {
    StagesKeepTask(max, w, Start(task), script, t - 1);
    if u < t - 1 {
      hide Work, Call;
      NothingSucceedsAfterwards(max, w, task, script, u, t - 1);
      var (w1, k1) := Stages(max, w, Start(task), script, t - 1);
      StageFindsNothing(max, w1, k1, script(t - 1));
      ServedOnceNeverAgain(Stages(max, w, Start(task), script, u).0.backend, task, script(u).uuid, script(t - 1).uuid);
    }
  }

  /** What a reconcile makes of the effect of an operation: its target, but pending after a delete. */
  function Recovered(kind: Kind): State {
    if kind.DeleteOp? then Pending else Target(kind)
  }

  /**
   An operation whose effect took place but was reported as failed exhausts its attempts and
   ends in error, on a working database.  A reconcile then brings the record to the
   operation's target, with the node it was attached to; a deleted volume, however, becomes
   pending and not deleted.
   */
  lemma LostAnswerIsRecovered(max: nat, w: World, task: Task, script: Script, u: nat, t: nat)
    requires max >= 1 && task.name in w.db && w.db[task.name].name == task.name
    requires w.db[task.name].state == Busy(task.kind)
    requires (forall i: nat :: SoundChoice(script(i))) && (task.kind.AttachOp? ==> task.nodeID != "")
    requires LosesAnswer(max, w, task, script, u) && u < t
    requires Stages(max, w, Start(task), script, t).1.pc.Done?
    ensures var w' := Stages(max, w, Start(task), script, t).0;
            var r := Lifecycle.ReconcileVolume(w', task.name, true, NO_FAULTS);
            && task.name in w'.db && w'.db[task.name] == w.db[task.name].(state := Error)
            && Results(max, w, Start(task), script, t) == Falses(max)
            && r.failure.None? && task.name in r.world.db
            && r.world.db[task.name].state == Recovered(task.kind)
            && r.world.db[task.name].nodeID == (if task.kind.AttachOp? then task.nodeID else "")
  {
    NothingSucceedsAfterwards(max, w, task, script, u, t);
    WorkerRefinesResults(max, w, task, script, t);
    var results := Results(max, w, Start(task), script, t);
    assert results == results[..|results| - 1] + [false];
    EffectShows(max, w, task, script, u);
  }

  /** The effect as a later query sees it. */
  lemma EffectShows(max: nat, w: World, task: Task, script: Script, u: nat)
    requires LosesAnswer(max, w, task, script, u)
    ensures var held := LostEffect(max, w, task, script, u);
            match task.kind
            case DeleteOp => task.name !in held
            case AttachOp => task.name in held && held[task.name].nodeID == task.nodeID
            case _ => task.name in held && held[task.name].nodeID == ""
  {
  }
}
