/**
 Node assignments.  AttachVolume writes the node before it evaluates its guard, so a rejected
 attach can leave the record with another node than the backend's; and the repair of a volume
 relies on attached volumes having a non-empty node.
 */
module Nodes {
  import opened Storage
  import opened Fsm
  import opened Lifecycle
  import opened Engine
  import opened Filing
  import opened Agreement

  /** An attached record names the node the backend has the volume on. */
  predicate NodeAgrees(w: World, name: string) {
    name in w.db && w.db[name].state == Attached ==> name in w.backend && w.backend[name].nodeID == w.db[name].nodeID
  }

  /** The record after one rejected attach on a volume attached to node "a". */
  lemma RejectedAttachOverwritesNode()
    ensures var w := World(map["v" := Volume("1", "v", 5, Attached, "mock", "a")],
                           map["v" := Volume("2", "v", 5, Attached, "mock", "a")], [], []);
            var r := Lifecycle.AttachVolume(w, "v", "b", NO_FAULTS);
            && r.failure == Some(InvalidTransition)
            && NodeAgrees(w, "v") && !NodeAgrees(r.world, "v")
            && r.world.db["v"].nodeID == "b" && r.world.backend["v"].nodeID == "a"
  {
  }

  /**
   A served attach leaves a volume that reconciliation can recognise as attached exactly
   when the node is not empty.
   */
  lemma AttachIsRecognisable(held: map<string, Volume>, task: Task, uuid: string)
    requires task.kind.AttachOp? && ShapeOf(held, task.name).Idle?
    ensures Serve(held, task, uuid).Some?
    ensures ShapeOf(Serve(held, task, uuid).value, task.name).OnNode? <==> task.nodeID != ""
  {
  }

  /**
   A reconciliation that the backend answers makes the stores agree exactly when the backend's
   own state and node are consistent; an attached volume without a node is recorded available.
   */
  lemma ReconcileRepairsExactlyWhen(w: World, name: string)
    requires name in w.db && w.db[name].state == Error && w.db[name].name == name
    requires name in w.backend ==> w.backend[name].sizeMB == w.db[name].sizeMB
    ensures AgreeAt(Lifecycle.ReconcileVolume(w, name, true, NO_FAULTS).world, name)
       <==> !ShapeOf(w.backend, name).Malformed?
    ensures name in w.backend && w.backend[name].state == Attached && w.backend[name].nodeID == "" ==>
              Lifecycle.ReconcileVolume(w, name, true, NO_FAULTS).world.db[name].state == Available
  {
  }

  // ----- What keeps the nodes in agreement -----

  predicate NodeFree(s: State) {
    s == Available || s == Pending || s == Deleted || s == Creating || s == CreatingFailed || s == Deleting
      || s == DeletingFailed
  }

  /** The recorded node fits the volume's state and the backend's node. */
  predicate NodeFits(w: World, name: string) {
    name in w.db ==>
      var v := w.db[name];
      && (NodeFree(v.state) ==> v.nodeID == "")
      && (name in w.backend && w.backend[name].state == Attached && v.state != Error ==>
          w.backend[name].nodeID == v.nodeID)
  }

  /** An attach worker attaches to the recorded node. */
  predicate AttachesThere(w: World, k: Worker) {
    k.task.kind.AttachOp? ==> k.task.name in w.db && k.task.nodeID == w.db[k.task.name].nodeID
  }

  ghost predicate NodeAt(c: Core, name: string) {
    NodeFits(c.world, name) && forall i | LiveFor(c, i, name) :: AttachesThere(c.world, c.workers[i])
  }

  ghost predicate NodesFit(c: Core) {
    forall name :: NodeAt(c, name)
  }

  /** The call writes the requested node to a record. */
  predicate WritesNode(w: World, name: string, f: Faults) {
    f.load && name in w.db && !f.write.Refused?
  }

  /**
   The attach leaves the nodes in order: it writes none; or it goes on to move the record to
   attaching; or the volume is in error; or the volume is on its way to a node, on one, or on
   its way off it, and the request names that very node, for the backend and for the worker.
   */
  ghost predicate KeepsNode(c: Core, name: string, nodeID: string, f: Faults) {
    WritesNode(c.world, name, f) ==>
      var state := c.world.db[name].state;
      || (state == Available && f.write.Stored? && !f.update.Refused?)
      || state == Error
      || (!NodeFree(state) && SameNode(c, name, nodeID))
  }

  /** The backend's node, where the volume is on one, and the node of every worker that attaches it. */
  ghost predicate SameNode(c: Core, name: string, nodeID: string) {
    && (name in c.world.backend && c.world.backend[name].state == Attached ==> c.world.backend[name].nodeID == nodeID)
    && (forall i | LiveFor(c, i, name) && c.workers[i].task.kind.AttachOp? :: c.workers[i].task.nodeID == nodeID)
  }

  ghost predicate KeepsNodes(c: Core, step: Step) {
    step.Attach? ==> KeepsNode(c, step.name, step.nodeID, step.faults)
  }

  ghost predicate AttachesKeepNodes(max: nat, c: Core, steps: seq<Step>)
    requires IsRun(max, c, steps)
    decreases |steps|
  {
    steps != [] ==> KeepsNodes(c, steps[0]) && AttachesKeepNodes(max, Next(max, c, steps[0]), steps[1..])
  }

  lemma WorkKeepsNode(max: nat, w: World, k: Worker, choice: Choice)
    requires WorkerOk(max, w, k) && AgreeAt(w, k.task.name) && w.db[k.task.name].name == k.task.name
    requires NodeFits(w, k.task.name) && AttachesThere(w, k)
    ensures var (w', k') := Work(max, w, k, choice);
            NodeFits(w', k.task.name) && k'.task == k.task && (k'.pc.Done? || AttachesThere(w', k'))
  {
    hide ApplyEvent, Serve, NodeFits, Fits;
    match k.pc
    case Calling => CallKeepsNode(max, w, k, choice.reply, choice.uuid);
    case Succeeded => SuccessKeepsNode(max, w, k, choice.faults);
    case Failed => FailureKeepsNode(max, w, k, EventError, choice.faults);
    case Exhausted => FailureKeepsNode(max, w, k, EventFail, choice.faults);
    case Retrying => FailureKeepsNode(max, w, k, EventRetry, choice.faults);
    case _ =>
  }

  /** Between in progress, failed and error, neither node changes. */
  lemma FailureKeepsNode(max: nat, w: World, k: Worker, event: Event, f: Faults)
    requires WorkerOk(max, w, k) && AgreeAt(w, k.task.name) && w.db[k.task.name].name == k.task.name
    requires NodeFits(w, k.task.name) && AttachesThere(w, k)
    requires event == EventError || event == EventFail || event == EventRetry
    ensures var w' := ApplyEvent(w, w.db[k.task.name], event, f).world;
            NodeFits(w', k.task.name) && AttachesThere(w', k)
  {
  }

  lemma CallKeepsNode(max: nat, w: World, k: Worker, reply: Reply, uuid: string)
    requires WorkerOk(max, w, k) && AgreeAt(w, k.task.name) && NodeFits(w, k.task.name) && AttachesThere(w, k)
    ensures NodeFits(Call(w, k.task, reply, uuid).0, k.task.name)
  {
    match k.task.kind case CreateOp => case AttachOp => case DetachOp => case DeleteOp =>
  }

  lemma SuccessKeepsNode(max: nat, w: World, k: Worker, f: Faults)
    requires WorkerOk(max, w, k) && k.pc.Succeeded? && AgreeAt(w, k.task.name) && w.db[k.task.name].name == k.task.name
    requires NodeFits(w, k.task.name)
    ensures NodeFits(ApplyEvent(w, PostSuccess(w.db[k.task.name], k.task.kind), Success(k.task.kind), f).world,
                     k.task.name)
  {
    match k.task.kind case CreateOp => case AttachOp => case DetachOp => case DeleteOp =>
  }

  /** The response of a call keeps the node, or finds no worker. */
  predicate ResponseKeepsNode(w: World, r: Response, name: string) {
    && NodeFits(r.world, name)
    && (AtRest(w, name)
        || (name in w.db && name in r.world.db && r.world.db[name].nodeID == w.db[name].nodeID && r.spawned.None?))
    && (r.spawned.Some? ==> r.spawned.value.name == name && AttachesThere(r.world, Start(r.spawned.value)))
  }

  lemma RespondKeepsNode(max: nat, c: Core, r: Response, name: string)
    requires SoloAt(max, c, name) && NodeAt(c, name) && ResponseKeepsNode(c.world, r, name)
    ensures NodeAt(Respond(c, r), name)
  {
    var c' := Respond(c, r);
    forall i | LiveFor(c', i, name) && i < |c.workers| ensures LiveFor(c, i, name) && c'.workers[i] == c.workers[i] {
      assert c'.workers[i] == c.workers[i];
    }
  }

  lemma CreateKeepsNode(max: nat, c: Core, step: Step)
    requires max >= 1 && Inv(max, c) && NodesFit(c) && Enabled(c, step) && step.Create?
    ensures NodeAt(Next(max, c, step), step.name)
  {
    assert InvAt(max, c, step.name) && NodeAt(c, step.name);
    var r := Lifecycle.CreateVolume(c.world, step.name, step.sizeMB, step.id, step.backend, step.faults);
    RespondKeepsNode(max, c, r, step.name);
    var c' := Next(max, c, step);
    assert forall i | LiveFor(c', i, step.name) :: LiveFor(Respond(c, r), i, step.name);
  }

  /** The call writes the node, and the record stays in its state. */
  predicate OnlyOverwrites(w: World, name: string, f: Faults) {
    WritesNode(w, name, f) && !(w.db[name].state == Available && f.write.Stored? && !f.update.Refused?)
  }

  lemma OverwritingAttach(w: World, name: string, nodeID: string, f: Faults)
    requires OnlyOverwrites(w, name, f) && w.db[name].name == name
    ensures var r := Lifecycle.AttachVolume(w, name, nodeID, f);
            r.world == w.(db := w.db[name := w.db[name].(nodeID := nodeID)]) && r.spawned.None?
  {
  }

  lemma OtherAttach(w: World, name: string, nodeID: string, f: Faults)
    requires AgreeAt(w, name) && NodeFits(w, name) && (name in w.db ==> w.db[name].name == name)
    requires !OnlyOverwrites(w, name, f)
    ensures ResponseKeepsNode(w, Lifecycle.AttachVolume(w, name, nodeID, f), name)
  {
  }

  /**
   The code writes the node of an attach before it decides on it.  An attach, under any faults,
   leaves the recorded node, the backend's and the attaching worker's in order exactly when
   KeepsNode says so.
   */
  lemma AttachKeepsNodeExactlyWhen(max: nat, c: Core, name: string, nodeID: string, f: Faults)
    requires max >= 1 && Inv(max, c) && NodesFit(c) && Enabled(c, Attach(name, nodeID, f))
    ensures NodeAt(Next(max, c, Attach(name, nodeID, f)), name) <==> KeepsNode(c, name, nodeID, f)
  {
    assert InvAt(max, c, name) && NodeAt(c, name);
    var r := Lifecycle.AttachVolume(c.world, name, nodeID, f);
    if OnlyOverwrites(c.world, name, f) {
      OverwritingAttach(c.world, name, nodeID, f);
      OverwritingKeepsExactlyWhen(max, c, name, nodeID);
    } else {
      OtherAttach(c.world, name, nodeID, f);
      RespondKeepsNode(max, c, r, name);
    }
  }

  lemma OverwritingKeepsExactlyWhen(max: nat, c: Core, name: string, nodeID: string)
    requires InvAt(max, c, name) && NodeAt(c, name) && name in c.world.db && nodeID != ""
    ensures var c' := c.(world := c.world.(db := c.world.db[name := c.world.db[name].(nodeID := nodeID)]));
            NodeAt(c', name) <==>
              c.world.db[name].state == Error || (!NodeFree(c.world.db[name].state) && SameNode(c, name, nodeID))
  {
    var c' := c.(world := c.world.(db := c.world.db[name := c.world.db[name].(nodeID := nodeID)]));
    assert forall i :: LiveFor(c', i, name) == LiveFor(c, i, name);
    if NodeAt(c', name) {
      assert forall i | LiveFor(c, i, name) :: LiveFor(c', i, name) && AttachesThere(c'.world, c'.workers[i]);
    }
  }

  lemma DetachNode(w: World, name: string, f: Faults)
    requires NodeFits(w, name) && (name in w.db ==> w.db[name].name == name)
    ensures ResponseKeepsNode(w, Lifecycle.ReleaseVolume(w, name, DetachOp, f), name)
  {
  }

  lemma DeleteNode(w: World, name: string, f: Faults)
    requires NodeFits(w, name) && (name in w.db ==> w.db[name].name == name)
    ensures ResponseKeepsNode(w, Lifecycle.ReleaseVolume(w, name, DeleteOp, f), name)
  {
  }

  lemma ReleaseNode(w: World, name: string, kind: Kind, f: Faults)
    requires NodeFits(w, name) && (kind.DetachOp? || kind.DeleteOp?) && (name in w.db ==> w.db[name].name == name)
    ensures ResponseKeepsNode(w, Lifecycle.ReleaseVolume(w, name, kind, f), name)
  {
    hide ResponseKeepsNode, ReleaseVolume;
    if kind.DetachOp? {
      DetachNode(w, name, f);
    } else {
      DeleteNode(w, name, f);
    }
  }

  lemma ReconcileNode(w: World, name: string, reachable: bool, f: Faults)
    requires AgreeAt(w, name) && NodeFits(w, name) && (name in w.db ==> w.db[name].name == name)
    ensures ResponseKeepsNode(w, Lifecycle.ReconcileVolume(w, name, reachable, f), name)
  {
  }

  lemma RequestKeepsNode(max: nat, c: Core, step: Step)
    requires max >= 1 && Inv(max, c) && NodesFit(c) && Enabled(c, step) && KeepsNodes(c, step)
    requires step.Attach? || step.Release? || step.Reconcile?
    ensures NodeAt(Next(max, c, step), step.name)
  {
    assert InvAt(max, c, step.name) && NodeAt(c, step.name);
    match step
    case Attach(name, nodeID, f) =>
      AttachKeepsNodeExactlyWhen(max, c, name, nodeID, f);
    case Release(name, kind, f) =>
      ReleaseNode(c.world, name, kind, f);
      RespondKeepsNode(max, c, Lifecycle.ReleaseVolume(c.world, name, kind, f), name);
    case Reconcile(name, reachable, f) =>
      ReconcileNode(c.world, name, reachable, f);
      RespondKeepsNode(max, c, Lifecycle.ReconcileVolume(c.world, name, reachable, f), name);
  }

  lemma StepKeepsNodes(max: nat, c: Core, step: Step)
    requires max >= 1 && Inv(max, c) && NodesFit(c) && Enabled(c, step) && KeepsNodes(c, step)
    ensures NodesFit(Next(max, c, step))
  {
    var c' := Next(max, c, step);
    forall name ensures NodeAt(c', name) {
      assert NodeAt(c, name) && InvAt(max, c, name);
      if step.Cancel? {
        assert forall i | LiveFor(c', i, name) :: LiveFor(c, i, name);
      } else if name != Subject(c, step) {
        StepElsewhere(max, c, step);
      } else if step.Advance? {
        assert LiveFor(c, step.worker, name);
        WorkKeepsNode(max, c.world, c.workers[step.worker], step.choice);
        forall j | LiveFor(c', j, name) ensures j == step.worker {
          assert LiveFor(c, j, name);
        }
      } else if step.Create? {
        CreateKeepsNode(max, c, step);
      } else {
        RequestKeepsNode(max, c, step);
      }
    }
  }

  /**
   In every run whose attaches keep the nodes, rejected ones included, an attached record names
   the backend's node, and no other settled record but one in error names any.
   */
  lemma {:induction false} RunKeepsNodes(max: nat, c: Core, steps: seq<Step>)
    requires max >= 1 && Inv(max, c) && NodesFit(c) && IsRun(max, c, steps) && AttachesKeepNodes(max, c, steps)
    ensures NodesFit(Run(max, c, steps))
    ensures forall name :: NodeAgrees(Run(max, c, steps).world, name)
    decreases |steps|
  {
    if steps != [] {
      StepKeeps(max, c, steps[0]);
      StepKeepsNodes(max, c, steps[0]);
      RunKeepsNodes(max, Next(max, c, steps[0]), steps[1..]);
    } else {
      forall name ensures NodeAgrees(c.world, name) {
        assert InvAt(max, c, name) && NodeAt(c, name);
      }
    }
  }
}
