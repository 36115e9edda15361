/**
 Runs from the empty system in which the code does not do what one might expect: each shows
 that the failing case of some exact condition is one that the code reaches.
 */
module Witnesses {
  import opened Storage
  import opened Fsm
  import opened Lifecycle
  import opened Engine
  import opened Filing
  import opened Agreement
  import opened Exact
  import opened Startup
  import Audit
  import Nodes
  import Permanence
  import Recovery
  import Restart
  import Retry
  import StartupResults

  // ----- Building runs -----

  lemma {:induction false} RunExtends(max: nat, c: Core, steps: seq<Step>, step: Step)
    requires IsRun(max, c, steps) && Enabled(Run(max, c, steps), step)
    ensures IsRun(max, c, steps + [step])
    ensures Run(max, c, steps + [step]) == Next(max, Run(max, c, steps), step)
    decreases |steps|
  {
    if steps == [] {
      assert [step][1..] == [];
    } else {
      assert (steps + [step])[1..] == steps[1..] + [step];
      RunExtends(max, Next(max, c, steps[0]), steps[1..], step);
    }
  }

  lemma OneMoreStep(max: nat, steps: seq<Step>, step: Step) returns (longer: seq<Step>)
    requires IsRun(max, EMPTY, steps) && Enabled(Run(max, EMPTY, steps), step)
    ensures IsRun(max, EMPTY, longer)
    ensures Run(max, EMPTY, longer) == Next(max, Run(max, EMPTY, steps), step)
  {
    RunExtends(max, EMPTY, steps, step);
    longer := steps + [step];
  }

  /** The next stage of the last worker. */
  lemma NextStage(max: nat, steps: seq<Step>, choice: Choice) returns (longer: seq<Step>)
    requires IsRun(max, EMPTY, steps) && !choice.stop
    requires var c := Run(max, EMPTY, steps); |c.workers| > 0 && !c.cancelled && !c.workers[|c.workers| - 1].pc.Done?
    ensures IsRun(max, EMPTY, longer)
    ensures var c := Run(max, EMPTY, steps);
            var i := |c.workers| - 1;
            var (w, k) := Work(max, c.world, c.workers[i], choice);
            Run(max, EMPTY, longer) == c.(world := w, workers := c.workers[i := k])
  {
    longer := OneMoreStep(max, steps, Advance(|Run(max, EMPTY, steps).workers| - 1, choice));
  }

  /** Volume "v" is in these states in the two stores, on these nodes. */
  predicate Stands(c: Core, state: State, node: string, held: Option<Volume>) {
    && c.world.db == map["v" := Volume("id", "v", 5, state, "mock", node)]
    && c.world.backend == (if held.None? then map[] else map["v" := held.value])
    && !c.cancelled
  }

  predicate LastWorker(c: Core, k: Worker) {
    |c.workers| > 0 && c.workers[|c.workers| - 1] == k
  }

  function OnBackend(state: State, node: string): Volume {
    Volume("b", "v", 5, state, "mock", node)
  }

  lemma Created(max: nat) returns (steps: seq<Step>)
    ensures IsRun(max, EMPTY, steps)
    ensures var c := Run(max, EMPTY, steps);
            && Stands(c, Creating, "", None)
            && c.workers == [Start(Task("v", CreateOp, 5, ""))]
            && c.world.log == [Entry("id", Applied(EventCreate), Pending, Creating)]
  {
    steps := [];
    assert IsRun(max, EMPTY, steps) && Run(max, EMPTY, steps) == EMPTY;
    hide IsRun, Run;
    steps := OneMoreStep(max, steps, Create("v", 5, "id", "mock", NO_FAULTS));
  }

  lemma CreatedOnBackend(max: nat) returns (steps: seq<Step>)
    ensures IsRun(max, EMPTY, steps)
    ensures var c := Run(max, EMPTY, steps);
            && Stands(c, Creating, "", Some(OnBackend(Available, "")))
            && c.workers == [Worker(Task("v", CreateOp, 5, ""), Succeeded, 1)]
            && c.world.log == [Entry("id", Applied(EventCreate), Pending, Creating)]
  {
    steps := Created(max);
    hide IsRun, Run;
    steps := NextStage(max, steps, SERVED);
    steps := NextStage(max, steps, SERVED);
  }

  lemma MadeAvailable(max: nat) returns (steps: seq<Step>)
    ensures IsRun(max, EMPTY, steps)
    ensures var c := Run(max, EMPTY, steps);
            && Stands(c, Available, "", Some(OnBackend(Available, "")))
            && |c.workers| == 1 && c.workers[0].pc.Done?
  {
    steps := CreatedOnBackend(max);
    hide IsRun, Run;
    steps := NextStage(max, steps, SERVED);
  }

  /** The volume is on its way to node "a": the backend has it there, and the worker has yet to say so. */
  lemma OnItsWay(max: nat) returns (steps: seq<Step>)
    ensures IsRun(max, EMPTY, steps)
    ensures var c := Run(max, EMPTY, steps);
            && Stands(c, Attaching, "a", Some(OnBackend(Attached, "a")))
            && |c.workers| == 2 && c.workers[0].pc.Done?
            && c.workers[1] == Worker(Task("v", AttachOp, 5, "a"), Succeeded, 1)
  {
    steps := MadeAvailable(max);
    hide IsRun, Run;
    steps := OneMoreStep(max, steps, Attach("v", "a", NO_FAULTS));
    steps := NextStage(max, steps, SERVED);
    steps := NextStage(max, steps, SERVED);
  }

  // ----- A restart that leaves the stores in disagreement -----

  /** A crash now, and no policy leads back to agreement. */
  lemma NoRestartFits(max: nat) returns (steps: seq<Step>)
    requires max >= 1
    ensures IsRun(max, EMPTY, steps) && Inv(max, Run(max, EMPTY, steps))
    ensures forall policy :: !Restart.RepairsFit(Run(max, EMPTY, steps).world, policy, StartupResults.Everywhere)
  {
    steps := OnItsWay(max);
    EmptyInv(max);
    RunKeeps(max, EMPTY, steps);
    var w := Run(max, EMPTY, steps).world;
    forall policy ensures !Restart.RepairsFit(w, policy, StartupResults.Everywhere) {
      assert "v" in w.db && IsTransitional(w.db["v"].state) && StartupResults.Everywhere("v");
      assert !StartupResults.RepairFits(policy, w, "v");
    }
  }

  // ----- A rejected attach on a volume that is being attached -----

  lemma NodesFitOnItsWay(c: Core)
    requires Stands(c, Attaching, "a", Some(OnBackend(Attached, "a")))
    requires |c.workers| == 2 && c.workers[0].pc.Done?
    requires c.workers[1] == Worker(Task("v", AttachOp, 5, "a"), Succeeded, 1)
    ensures Nodes.NodesFit(c)
    ensures forall f: Faults | f.load && !f.write.Refused? :: !Nodes.KeepsNode(c, "v", "b", f)
  {
    assert LiveFor(c, 1, "v");
  }

  /**
   While the volume is being attached to "a", an attach to "b" is rejected; then the first one
   succeeds, and the record says "b" for a volume that is attached to "a".
   */
  lemma RejectedAttachWins(max: nat) returns (steps: seq<Step>, rejected: Step, last: Step)
    requires max >= 1
    ensures IsRun(max, EMPTY, steps) && Inv(max, Run(max, EMPTY, steps)) && Nodes.NodesFit(Run(max, EMPTY, steps))
    ensures Sound(rejected) && rejected.Attach? && Enabled(Run(max, EMPTY, steps), rejected)
    ensures !Nodes.KeepsNodes(Run(max, EMPTY, steps), rejected)
    ensures Lifecycle.AttachVolume(Run(max, EMPTY, steps).world, rejected.name, rejected.nodeID,
                                   rejected.faults).failure.Some?
    ensures var c := Next(max, Run(max, EMPTY, steps), rejected);
            && Enabled(c, last) && Sound(last)
            && Stands(Next(max, c, last), Attached, "b", Some(OnBackend(Attached, "a")))
  {
    steps := OnItsWay(max);
    EmptyInv(max);
    RunKeeps(max, EMPTY, steps);
    NodesFitOnItsWay(Run(max, EMPTY, steps));
    rejected, last := Attach("v", "b", NO_FAULTS), Advance(1, SERVED);
  }

  // ----- A volume that nobody works on -----

  /**
   A create whose update takes effect while it is reported as failed: the volume is creating, and
   nobody creates it.
   */
  lemma CreateLeavesOrphan(max: nat) returns (steps: seq<Step>)
    ensures IsRun(max, EMPTY, steps) && |steps| == 1 && Permanence.Abandons(EMPTY, steps[0], "v")
    ensures Permanence.Orphaned(Run(max, EMPTY, steps), "v")
  {
    var step := Create("v", 5, "id", "mock", NO_FAULTS.(update := Unacknowledged));
    steps := [step];
    assert steps[1..] == [] && Run(max, EMPTY, steps) == Next(max, EMPTY, step);
  }

  /** A shutdown that catches a worker before its call does the same. */
  lemma ShutdownLeavesOrphan(max: nat) returns (steps: seq<Step>)
    ensures IsRun(max, EMPTY, steps)
    ensures Permanence.Orphaned(Run(max, EMPTY, steps), "v")
  {
    steps := Created(max);
    hide IsRun, Run;
    steps := OneMoreStep(max, steps, Cancel);
    steps := OneMoreStep(max, steps, Advance(0, SERVED.(stop := true)));
  }

  // ----- An entry that is not saved -----

  /** A create whose entry is not saved: the volume is creating, and its log says that it is pending. */
  lemma CreateGoesUnlogged(max: nat) returns (steps: seq<Step>)
    ensures IsRun(max, EMPTY, steps) && |steps| == 1 && !Audit.KeepsLog(max, EMPTY, steps[0])
    ensures var w := Run(max, EMPTY, steps).world;
            "v" in w.db && w.db["v"].state == Creating && Audit.Replay(w.log, "id", Pending) == Some(Pending)
  {
    var step := Create("v", 5, "id", "mock", NO_FAULTS.(saved := false));
    steps := [step];
    assert steps[1..] == [] && Run(max, EMPTY, steps) == Next(max, EMPTY, step);
  }

  // ----- A volume that is reconciled to pending -----

  /** The create keeps failing: the backend never holds the volume. */
  ghost predicate Failing(max: nat, c: Core) {
    && |c.workers| == 1
    && var k := c.workers[0];
       && k.task == Task("v", CreateOp, 5, "") && AttemptFits(max, k) && !k.pc.Succeeded?
       && Stands(c, if k.pc.Done? then Error else StageState(k), "", None)
  }

  lemma FailingStage(max: nat, c: Core)
    requires Failing(max, c) && !c.workers[0].pc.Done?
    ensures var (w, k) := Work(max, c.world, c.workers[0], UNREACHED);
            && Failing(max, c.(world := w, workers := [k]))
            && Budget(max, k) < Budget(max, c.workers[0])
  {
  }

  lemma {:induction false} KeepFailing(max: nat, steps: seq<Step>) returns (all: seq<Step>)
    requires IsRun(max, EMPTY, steps) && Failing(max, Run(max, EMPTY, steps))
    ensures IsRun(max, EMPTY, all) && Failing(max, Run(max, EMPTY, all)) && Run(max, EMPTY, all).workers[0].pc.Done?
    decreases Budget(max, Run(max, EMPTY, steps).workers[0])
  {
    var c := Run(max, EMPTY, steps);
    if c.workers[0].pc.Done? {
      all := steps;
    } else {
      FailingStage(max, c);
      hide Failing;
      var (w, k) := Work(max, c.world, c.workers[0], UNREACHED);
      var next := NextStage(max, steps, UNREACHED);
      assert Run(max, EMPTY, next) == c.(world := w, workers := [k]);
      all := KeepFailing(max, next);
    }
  }

  /** An operation that fails for good, and its reconcile: the volume is pending, for ever. */
  lemma ReconciledToPending(max: nat) returns (steps: seq<Step>)
    requires max >= 1
    ensures IsRun(max, EMPTY, steps)
    ensures var c := Run(max, EMPTY, steps);
            && Stands(c, Error, "", None)
            && Stands(Next(max, c, Reconcile("v", true, NO_FAULTS)), Pending, "", None)
  {
    steps := Created(max);
    steps := KeepFailing(max, steps);
  }

  // ----- A lost answer -----

  /** The second stage is the call: its answer is lost, and later calls do not arrive. */
  function LosingOnce(t: nat): Choice {
    Choice(false, if t == 1 then Unreported else Unreached, "b", NO_FAULTS)
  }

  lemma DeleteAccepted(max: nat) returns (steps: seq<Step>)
    requires max >= 1
    ensures IsRun(max, EMPTY, steps)
    ensures var c := Run(max, EMPTY, steps);
            && Stands(c, Deleting, "", Some(OnBackend(Available, "")))
            && LastWorker(c, Start(Task("v", DeleteOp, 5, "")))
            && Agreement.Workable(max, c.world, Start(Task("v", DeleteOp, 5, "")))
  {
    steps := MadeAvailable(max);
    steps := OneMoreStep(max, steps, Release("v", DeleteOp, NO_FAULTS));
    EmptyInv(max);
    RunKeeps(max, EMPTY, steps);
    var c := Run(max, EMPTY, steps);
    assert InvAt(max, c, "v") && LiveFor(c, |c.workers| - 1, "v");
  }

  /**
   A delete that is served and reported as failed: it ends in error, and its reconcile leads to
   pending and not to deleted.
   */
  lemma DeleteEndsPending(max: nat) returns (steps: seq<Step>)
    requires max >= 1
    ensures IsRun(max, EMPTY, steps)
    ensures var w, task := Run(max, EMPTY, steps).world, Task("v", DeleteOp, 5, "");
            && LastWorker(Run(max, EMPTY, steps), Start(task))
            && Recovery.LosesAnswer(max, w, task, LosingOnce, 1)
            && var (w', k') := Retry.Stages(max, w, Start(task), LosingOnce, 5 * max);
               && k'.pc.Done?
               && "v" in w'.db && w'.db["v"].state == Error && "v" !in w'.backend
               && var r := Lifecycle.ReconcileVolume(w', "v", true, NO_FAULTS);
                  "v" in r.world.db && r.world.db["v"].state == Pending
  {
    steps := DeleteAccepted(max);
    var w, task := Run(max, EMPTY, steps).world, Task("v", DeleteOp, 5, "");
    hide IsRun, Run, Retry.Stages;
    FirstCallIsLost(max, w, task);
    Retry.CallsAreBounded(max, w, task, LosingOnce, 5 * max);
    Recovery.LostAnswerIsRecovered(max, w, task, LosingOnce, 1, 5 * max);
    Recovery.NothingSucceedsAfterwards(max, w, task, LosingOnce, 1, 5 * max);
    Recovery.EffectShows(max, w, task, LosingOnce, 1);
  }

  lemma FirstCallIsLost(max: nat, w: World, task: Task)
    requires Serve(w.backend, task, "b").Some?
    ensures Recovery.LosesAnswer(max, w, task, LosingOnce, 1)
  {
    assert Retry.Stages(max, w, Start(task), LosingOnce, 0) == (w, Start(task));
    assert Retry.Stages(max, w, Start(task), LosingOnce, 1) == (w, Start(task).(pc := Calling));
  }

  // ----- A repair that is logged but not made -----

  /** The database refuses every update, and saves every entry. */
  function Refusing(k: nat): Luck {
    Luck(true, Faults(true, Stored, Refused, true))
  }

  lemma RefusedRepair(policy: DbOnly, w: World, v: Volume)
    requires v.name in w.db && w.db[v.name] == v && v.state == Creating && Held(w, v.name).Some?
    requires w.backend[v.name].nodeID == ""
    ensures Alone(policy, w, Begin(v), Refusing, 3).0 == Aligned(w, v, Creating, "", Refusing(1).faults)
  {
    assert Alone(policy, w, Begin(v), Refusing, 0) == (w, Begin(v));
    assert Alone(policy, w, Begin(v), Refusing, 1) == (w, Job(v, Align("")));
    var (w2, j2) := Alone(policy, w, Begin(v), Refusing, 2);
    assert (w2, j2) == Startup.RunStage(policy, w, Job(v, Align("")), Refusing(1));
    assert Alone(policy, w, Begin(v), Refusing, 3) == (w2, j2);
  }

  /** A crash just before a create reports its success; then startup logs a repair that it has not made. */
  lemma RepairIsOnlyLogged(max: nat, policy: DbOnly) returns (steps: seq<Step>)
    ensures IsRun(max, EMPTY, steps)
    ensures var w := Run(max, EMPTY, steps).world;
            && "v" in w.db
            && StartupResults.Follows(w, w.db["v"], Pending)
            && var w' := Alone(policy, w, Begin(w.db["v"]), Refusing, 3).0;
               && w'.db == w.db && w'.log == w.log + [Entry("id", Reconciled, Creating, Available)]
               && !StartupResults.Follows(w', w.db["v"], Pending)
  {
    steps := CreatedOnBackend(max);
    hide IsRun, Run, Inv;
    var w := Run(max, EMPTY, steps).world;
    var v := w.db["v"];
    RefusedRepair(policy, w, v);
    StartupResults.AlignFollowsExactlyWhen(w, v, Pending, "", Refusing(1).faults);
  }

  // ----- A startup pass that overlaps a request -----

  function AlwaysGood(k: nat): Luck {
    GOOD
  }

  /**
   The pass lists a volume that is just being created, finds it missing from the backend and, as
   its policy is to delete such records, erases it; then the create's worker calls the backend,
   which from then on holds a volume without a record.
   */
  lemma OverlapBreaksAgreement(max: nat) returns (steps: seq<Step>)
    ensures IsRun(max, EMPTY, steps)
    ensures var c := Run(max, EMPTY, steps);
            && "v" in c.world.db && IsTransitional(c.world.db["v"].state) && |c.workers| == 1
            && var (w, j) := Alone(EraseRecord, c.world, Begin(c.world.db["v"]), AlwaysGood, 2);
               && j.stage.Over?
               && var (w1, k1) := Work(max, w, c.workers[0], SERVED);
                  var (w2, k2) := Work(max, w1, k1, SERVED);
                  && k2.pc.Done?
                  && "v" !in w2.db && "v" in w2.backend && !AgreeAt(w2, "v")
  {
    steps := Created(max);
    hide IsRun, Run;
    steps := NextStage(max, steps, SERVED);
    var c := Run(max, EMPTY, steps);
    var v := c.world.db["v"];
    assert Alone(EraseRecord, c.world, Begin(v), AlwaysGood, 0) == (c.world, Begin(v));
    assert Alone(EraseRecord, c.world, Begin(v), AlwaysGood, 1) == (c.world, Job(v, Erase));
  }
}
