/**
 Closing the feature: the workers' context is cancelled, and their wait group is waited for.
 How soon it drains does not depend on the retry policy.
 */
module Shutdown {
  import opened Storage
  import opened Fsm
  import opened Lifecycle
  import opened Engine
  import opened Filing
  import opened Agreement
  import opened Exact

  /** How many stages can follow once the context is cancelled: none beyond the next check. */
  function StagesToStop(pc: Pc): nat {
    match pc
    case Done => 0
    case Check => 1
    case Exhausted => 1
    case Succeeded => 1
    case Retrying => 2
    case Waiting => 3
    case Failed => 4
    case Calling => 5
  }

  function TotalToStop(ks: seq<Worker>): nat {
    if ks == [] then 0 else TotalToStop(ks[..|ks| - 1]) + StagesToStop(ks[|ks| - 1].pc)
  }

  lemma {:induction false} TotalAfter(ks: seq<Worker>, i: nat, k: Worker)
    requires i < |ks|
    ensures TotalToStop(ks[i := k]) == TotalToStop(ks) - StagesToStop(ks[i].pc) + StagesToStop(k.pc)
    decreases |ks|
  {
    var front := ks[..|ks| - 1];
    if i < |ks| - 1 {
      assert ks[i := k][..|ks| - 1] == front[i := k];
      TotalAfter(front, i, k);
    } else {
      assert ks[i := k][..|ks| - 1] == front;
    }
  }

  lemma {:induction false} AtMostFiveEach(ks: seq<Worker>)
    ensures TotalToStop(ks) <= 5 * |ks|
  {
    if ks != [] {
      AtMostFiveEach(ks[..|ks| - 1]);
    }
  }

  lemma StopsSooner(max: nat, w: World, k: Worker, choice: Choice)
    requires !k.pc.Done? && (k.pc.Check? ==> choice.stop)
    ensures StagesToStop(Work(max, w, k, choice).1.pc) < StagesToStop(k.pc)
  {
  }

  /**
   Once cancelled, and with no new requests, any interleaving takes at most five more stages
   for each worker, however many attempts the policy allows.
   */
  lemma {:induction false} CancelledRunsDrain(max: nat, c: Core, steps: seq<Step>)
    requires c.cancelled && IsRun(max, c, steps) && OnlyWork(steps)
    ensures |steps| + TotalToStop(Run(max, c, steps).workers) <= TotalToStop(c.workers) <= 5 * |c.workers|
    decreases |steps|
  {
    AtMostFiveEach(c.workers);
    if steps != [] {
      var i, choice := steps[0].worker, steps[0].choice;
      StopsSooner(max, c.world, c.workers[i], choice);
      TotalAfter(c.workers, i, Work(max, c.world, c.workers[i], choice).1);
      CancelledRunsDrain(max, Next(max, c, steps[0]), steps[1..]);
    }
  }

  /** No worker begins another backend call after the cancellation, unless it was past its check already. */
  ghost predicate NotCalling(c: Core, i: nat) {
    i < |c.workers| && !c.workers[i].pc.Calling?
  }

  lemma {:induction false} NoNewCalls(max: nat, c: Core, steps: seq<Step>, i: nat)
    requires c.cancelled && IsRun(max, c, steps) && NotCalling(c, i)
    ensures NotCalling(Run(max, c, steps), i)
    decreases |steps|
  {
    if steps != [] {
      NoNewCalls(max, Next(max, c, steps[0]), steps[1..], i);
    }
  }

  /**
   The wait group of a closed system reaches zero with the workers stopped where they were:
   each volume is left in a state of the operation that was under way, or at rest, and the
   stores still agree.
   */
  lemma ClosedSystemIsConsistent(max: nat, c: Core, steps: seq<Step>, name: string)
    requires max >= 1 && Inv(max, c) && IsRun(max, Next(max, c, Cancel), steps) && OnlyWork(steps)
    ensures var c' := Run(max, Next(max, c, Cancel), steps);
            && SameStory(c'.world, name)
            && (name in c.world.db && !IsTransitional(c.world.db[name].state) ==>
                  name in c'.world.db && c'.world.db[name].state == c.world.db[name].state)
            && (name in c.world.db && IsTransitional(c.world.db[name].state) ==>
                  name in c'.world.db && OwnStates(KindOf(c.world.db[name].state), c'.world.db[name].state))
  {
    StepKeeps(max, c, Cancel);
    RunKeeps(max, Next(max, c, Cancel), steps);
    assert InvAt(max, Run(max, Next(max, c, Cancel), steps), name);
    if name in c.world.db {
      WorkStaysOwn(max, Next(max, c, Cancel), steps, name);
    }
  }

  /** From a state, workers alone can lead to these. */
  predicate OwnOnly(before: State, after: State) {
    if IsTransitional(before) then OwnStates(KindOf(before), after) else after == before
  }

  lemma OwnComposes(a: State, b: State, c: State)
    requires OwnOnly(a, b) && OwnOnly(b, c)
    ensures OwnOnly(a, c)
  {
  }

  lemma {:induction false} WorkStaysOwn(max: nat, c: Core, steps: seq<Step>, name: string)
    requires max >= 1 && Inv(max, c) && IsRun(max, c, steps) && OnlyWork(steps) && name in c.world.db
    ensures var c' := Run(max, c, steps);
            name in c'.world.db && OwnOnly(c.world.db[name].state, c'.world.db[name].state)
    decreases |steps|
  {
    if steps != [] {
      hide Inv, OwnOnly;
      StepKeeps(max, c, steps[0]);
      OneStageStaysOwn(max, c, steps[0], name);
      WorkStaysOwn(max, Next(max, c, steps[0]), steps[1..], name);
      OwnComposes(c.world.db[name].state, Next(max, c, steps[0]).world.db[name].state,
                     Run(max, c, steps).world.db[name].state);
    } else {
      assert OwnOnly(c.world.db[name].state, c.world.db[name].state);
    }
  }

  lemma OneStageStaysOwn(max: nat, c: Core, step: Step, name: string)
    requires Inv(max, c) && Enabled(c, step) && step.Advance? && name in c.world.db
    ensures var w' := Next(max, c, step).world;
            name in w'.db && OwnOnly(c.world.db[name].state, w'.db[name].state)
  {
    var k := c.workers[step.worker];
    assert InvAt(max, c, k.task.name) && LiveFor(c, step.worker, k.task.name);
    if k.task.name == name {
      WorkIsSafe(max, c.world, k, step.choice);
    } else {
      StepIsLocal(max, c, step);
    }
  }
}
