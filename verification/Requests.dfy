/**
 When a request is accepted, what a refused one leaves behind, and how a create that
 fails half-way blocks its name for good.
 */
module Requests {
  import opened Storage
  import opened Fsm
  import opened Lifecycle
  import opened Engine
  import opened Agreement
  import opened Permanence

  // ----- What a call answers -----

  /** Whatever fails: which answer a create gives, by its input; without any of them it is accepted. */
  lemma CreateAnswers(w: World, name: string, sizeMB: int, id: string, backend: string, f: Faults)
    ensures var a := Lifecycle.CreateVolume(w, name, sizeMB, id, backend, f).failure;
            && (a == Some(InvalidSize) <==> sizeMB <= 0)
            && (a == Some(VolumeExists) <==> sizeMB > 0 && f.load && name in w.db)
            && (a == Some(Database) <==>
                  sizeMB > 0 && (!f.load || (name !in w.db && !(f.write.Stored? && f.update.Stored?))))
            && a != Some(VolumeNotFound) && a != Some(InvalidTransition) && a != Some(BackendUnavailable)
  {
  }

  lemma AttachAnswers(w: World, name: string, nodeID: string, f: Faults)
    requires name in w.db ==> w.db[name].name == name
    ensures var a := Lifecycle.AttachVolume(w, name, nodeID, f).failure;
            && (a == Some(VolumeNotFound) <==> f.load && name !in w.db)
            && (a == Some(InvalidTransition) <==>
                  f.load && name in w.db && f.write.Stored? && w.db[name].state != Available)
            && (a == Some(Database) <==>
                  || !f.load
                  || (name in w.db && !f.write.Stored?)
                  || (name in w.db && w.db[name].state == Available && !f.update.Stored?))
            && a != Some(InvalidSize) && a != Some(VolumeExists) && a != Some(BackendUnavailable)
  {
  }

  /** A detach wants an attached volume, a delete an available one. */
  lemma ReleaseAnswers(w: World, name: string, kind: Kind, f: Faults)
    requires (name in w.db ==> w.db[name].name == name) && (kind.DetachOp? || kind.DeleteOp?)
    ensures var a, wanted := ReleaseVolume(w, name, kind, f).failure, if kind.DetachOp? then Attached else Available;
            && (a == Some(VolumeNotFound) <==> f.load && name !in w.db)
            && (a == Some(InvalidTransition) <==> f.load && name in w.db && w.db[name].state != wanted)
            && (a == Some(Database) <==> !f.load || (name in w.db && w.db[name].state == wanted && !f.update.Stored?))
            && a != Some(InvalidSize) && a != Some(VolumeExists) && a != Some(BackendUnavailable)
  {
  }

  lemma ReconcileAnswers(w: World, name: string, reachable: bool, f: Faults)
    requires name in w.db ==> w.db[name].name == name
    ensures var a := Lifecycle.ReconcileVolume(w, name, reachable, f).failure;
            && (a == Some(VolumeNotFound) <==> f.load && name !in w.db)
            && (a == Some(InvalidTransition) <==> f.load && name in w.db && w.db[name].state != Error)
            && (a == Some(BackendUnavailable) <==> f.load && name in w.db && w.db[name].state == Error && !reachable)
            && (a == Some(Database) <==>
                  !f.load || (name in w.db && w.db[name].state == Error && reachable && !f.update.Stored?))
            && a != Some(InvalidSize) && a != Some(VolumeExists)
  {
  }

  // ----- What an accepted call does -----

  /** A state change of one record, with its entry, if that is saved, and its event. */
  function Advanced(w: World, before: Volume, after: Volume, event: Event, saved: bool): World {
    World(w.db[after.name := after],
          w.backend,
          w.log + if saved then [Entry(before.id, Applied(event), before.state, after.state)] else [],
          w.feed + [StateEvent(after.name, after.state, event)])
  }

  lemma AcceptedCreateDoes(w: World, name: string, sizeMB: int, id: string, backend: string, f: Faults)
    ensures var r := Lifecycle.CreateVolume(w, name, sizeMB, id, backend, f);
            r.failure.None? ==>
              && r.world == Advanced(w, Volume(id, name, sizeMB, Pending, backend, ""),
                                     Volume(id, name, sizeMB, Creating, backend, ""), EventCreate, f.saved)
              && r.spawned == Some(Task(name, CreateOp, sizeMB, ""))
  {
    var before := Volume(id, name, sizeMB, Pending, backend, "");
    var after := before.(state := Creating);
    assert w.db[name := before][name := after] == w.db[name := after];
  }

  lemma AcceptedAttachDoes(w: World, name: string, nodeID: string, f: Faults)
    requires name in w.db && w.db[name].name == name
    ensures var r, v := Lifecycle.AttachVolume(w, name, nodeID, f), w.db[name];
            r.failure.None? ==>
              && r.world == Advanced(w, v, v.(state := Attaching, nodeID := nodeID), EventAttach, f.saved)
              && r.spawned == Some(Task(name, AttachOp, v.sizeMB, nodeID))
  {
    var v := w.db[name];
    assert w.db[name := v.(nodeID := nodeID)][name := v.(state := Attaching, nodeID := nodeID)]
        == w.db[name := v.(state := Attaching, nodeID := nodeID)];
  }

  lemma AcceptedReleaseDoes(w: World, name: string, kind: Kind, f: Faults)
    requires name in w.db && w.db[name].name == name && (kind.DetachOp? || kind.DeleteOp?)
    ensures var r, v := ReleaseVolume(w, name, kind, f), w.db[name];
            r.failure.None? ==>
              && r.world == (if kind.DetachOp? then Advanced(w, v, v.(state := Detaching), EventDetach, f.saved)
                             else Advanced(w, v, v.(state := Deleting), EventDelete, f.saved))
              && r.spawned == Some(Task(name, kind, v.sizeMB, ""))
  {
  }

  /** A reconcile writes what the backend holds, and its entry; it publishes nothing and starts nobody. */
  lemma AcceptedReconcileDoes(w: World, name: string, f: Faults)
    requires name in w.db && w.db[name].name == name
    ensures var r, v := Lifecycle.ReconcileVolume(w, name, true, f), w.db[name];
            r.failure.None? ==>
              && r.spawned.None? && r.world.backend == w.backend && r.world.feed == w.feed
              && name in r.world.db && r.world.db == w.db[name := r.world.db[name]]
              && r.world.log == w.log
                 + (if f.saved then [Entry(v.id, Reconciled, Error, r.world.db[name].state)] else [])
              && r.world.db[name] ==
                 if name !in w.backend then v.(state := Pending, nodeID := "")
                 else if w.backend[name].nodeID == "" then v.(state := Available, nodeID := "")
                 else v.(state := Attached, nodeID := w.backend[name].nodeID)
  {
  }

  // ----- What a refused call leaves behind -----

  /** On a working database a refused create, detach, delete or reconcile leaves no trace. */
  lemma RefusedLeavesNoTrace(
    w: World, name: string, sizeMB: int, id: string, backend: string, kind: Kind, reachable: bool)
    ensures var r := Lifecycle.CreateVolume(w, name, sizeMB, id, backend, NO_FAULTS); r.failure.Some? ==> r.world == w
    ensures var r := ReleaseVolume(w, name, kind, NO_FAULTS);
            (name in w.db ==> w.db[name].name == name) && r.failure.Some? ==> r.world == w
    ensures var r := Lifecycle.ReconcileVolume(w, name, reachable, NO_FAULTS);
            (name in w.db ==> w.db[name].name == name) && r.failure.Some? ==> r.world == w
  {
  }

  /**
   The in-memory backend reports a volume it does not hold as an error, which reconciliation
   takes for an unreachable backend.  So with that backend a reconcile succeeds exactly for a
   held volume, and never resets one to pending.
   */
  lemma ReconcileOnMockExactlyWhenHeld(w: World, name: string)
    requires name in w.db ==> w.db[name].name == name
    ensures var r := Lifecycle.ReconcileVolume(w, name, name in w.backend, NO_FAULTS);
            && (r.failure.None? <==> name in w.db && w.db[name].state == Error && name in w.backend)
            && (r.failure.None? ==> r.world.db[name].state == Attached || r.world.db[name].state == Available)
  {
  }

  /**
   A failed create has inserted its record all the same exactly when the insertion, but not all that
   follows, was done.
   */
  predicate HalfDone(w: World, name: string, sizeMB: int, f: Faults) {
    sizeMB > 0 && f.load && name !in w.db && !f.write.Refused? && (!f.write.Stored? || f.update.Refused?)
  }

  lemma FailedCreateInsertsExactlyWhen(w: World, name: string, sizeMB: int, id: string, backend: string, f: Faults)
    ensures var r := Lifecycle.CreateVolume(w, name, sizeMB, id, backend, f);
            (r.failure.Some? && name !in w.db && name in r.world.db && r.world.db[name].state == Pending)
            == HalfDone(w, name, sizeMB, f)
  {
  }

  /**
   Such a create blocks its name for good: whatever runs later and whatever works then, the
   record rests in pending, the backend never holds the volume, and every create of the
   name is refused.
   */
  lemma HalfDoneCreateBlocksName(max: nat, c: Core, step: Step, steps: seq<Step>, sizeMB: int, id: string, f: Faults)
    requires max >= 1 && Inv(max, c) && step.Create? && Enabled(c, step)
    requires HalfDone(c.world, step.name, step.sizeMB, step.faults)
    requires IsRun(max, Next(max, c, step), steps)
    ensures var w := Run(max, Next(max, c, step), steps).world;
            && step.name in w.db && w.db[step.name].state == Pending && step.name !in w.backend
            && Lifecycle.CreateVolume(w, step.name, sizeMB, id, step.backend, f).failure.Some?
  {
    FailedCreateInsertsExactlyWhen(c.world, step.name, step.sizeMB, step.id, step.backend, step.faults);
    StepKeeps(max, c, step);
    DeadEndsAreForever(max, Next(max, c, step), steps, step.name);
  }
}
