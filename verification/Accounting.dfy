/**
 Retry accounting from any moment without workers on, as after a restart.  Steps only ever
 append to the log, so what it held before is of no account.
 */
module Accounting {
  import opened Storage
  import opened Fsm
  import opened Lifecycle
  import opened Engine
  import opened Filing
  import opened Agreement
  import opened Audit

  // ----- The log is write-only -----

  /** The same world, but for what the log held before. */
  predicate SameBut(past: seq<Entry>, w: World, recent: World) {
    w == recent.(log := past + recent.log)
  }

  lemma ApplyIgnoresPast(past: seq<Entry>, w: World, r: World, v: Volume, event: Event, f: Faults)
    requires SameBut(past, w, r)
    ensures var o, o' := ApplyEvent(w, v, event, f), ApplyEvent(r, v, event, f);
            SameBut(past, o.world, o'.world) && o.volume == o'.volume && o.failure == o'.failure
  {
    var next := Transition(v.state, event);
    if next.Some? {
      var e := Entry(v.id, Applied(event), v.state, next.value);
      assert past + r.log + [e] == past + (r.log + [e]);
    }
  }

  /** The same response, in the same world. */
  predicate SameAnswer(past: seq<Entry>, a: Response, b: Response) {
    SameBut(past, a.world, b.world) && a.failure == b.failure && a.spawned == b.spawned
  }

  lemma AcceptIgnoresPast(past: seq<Entry>, w: World, r: World, v: Volume, task: Task, f: Faults)
    requires SameBut(past, w, r)
    ensures SameAnswer(past, Accept(w, v, task, f), Accept(r, v, task, f))
  {
    ApplyIgnoresPast(past, w, r, v, Request(task.kind), f);
  }

  lemma CreateIgnoresPast(
    past: seq<Entry>, w: World, r: World, name: string, sizeMB: int, id: string, backend: string, f: Faults)
    requires SameBut(past, w, r)
    ensures SameAnswer(past, Lifecycle.CreateVolume(w, name, sizeMB, id, backend, f),
                       Lifecycle.CreateVolume(r, name, sizeMB, id, backend, f))
  {
    var v := Volume(id, name, sizeMB, Pending, backend, "");
    AcceptIgnoresPast(past, w.(db := w.db[name := v]), r.(db := r.db[name := v]), v, Task(name, CreateOp, sizeMB, ""),
                      f);
  }

  lemma AttachIgnoresPast(past: seq<Entry>, w: World, r: World, name: string, nodeID: string, f: Faults)
    requires SameBut(past, w, r)
    ensures SameAnswer(past, Lifecycle.AttachVolume(w, name, nodeID, f), Lifecycle.AttachVolume(r, name, nodeID, f))
  {
    if name in w.db {
      var v := w.db[name].(nodeID := nodeID);
      AcceptIgnoresPast(past, Update(w, v, f.write), Update(r, v, f.write), v, Task(name, AttachOp, v.sizeMB, nodeID),
                        f);
    }
  }

  lemma ReleaseIgnoresPast(past: seq<Entry>, w: World, r: World, name: string, kind: Kind, f: Faults)
    requires SameBut(past, w, r)
    ensures SameAnswer(past, ReleaseVolume(w, name, kind, f), ReleaseVolume(r, name, kind, f))
  {
    if name in w.db {
      AcceptIgnoresPast(past, w, r, w.db[name], Task(name, kind, w.db[name].sizeMB, ""), f);
    }
  }

  lemma ReconcileIgnoresPast(past: seq<Entry>, w: World, r: World, name: string, reachable: bool, f: Faults)
    requires SameBut(past, w, r)
    ensures SameAnswer(past, Lifecycle.ReconcileVolume(w, name, reachable, f),
                       Lifecycle.ReconcileVolume(r, name, reachable, f))
  {
    if name in w.db {
      var v := Realign(w.db[name], Held(w, name));
      var e := Entry(v.id, Reconciled, w.db[name].state, v.state);
      assert past + r.log + [e] == past + (r.log + [e]);
    }
  }

  lemma WorkIgnoresPast(past: seq<Entry>, max: nat, w: World, r: World, k: Worker, choice: Choice)
    requires SameBut(past, w, r)
    ensures SameBut(past, Work(max, w, k, choice).0, Work(max, r, k, choice).0)
    ensures Work(max, w, k, choice).1 == Work(max, r, k, choice).1
  {
    hide ApplyEvent;
    if k.task.name in w.db {
      var v := w.db[k.task.name];
      ApplyIgnoresPast(past, w, r, PostSuccess(v, k.task.kind), Success(k.task.kind), choice.faults);
      ApplyIgnoresPast(past, w, r, v, EventError, choice.faults);
      ApplyIgnoresPast(past, w, r, v, EventFail, choice.faults);
      ApplyIgnoresPast(past, w, r, v, EventRetry, choice.faults);
    }
  }

  /** The same system, but for what the log held before and for how old volumes were born. */
  ghost predicate SameCore(past: seq<Entry>, c: Core, r: Core) {
    && SameBut(past, c.world, r.world)
    && c.born.Keys == r.born.Keys && c.workers == r.workers && c.cancelled == r.cancelled
  }

  lemma NextIgnoresPast(past: seq<Entry>, max: nat, c: Core, r: Core, step: Step)
    requires SameCore(past, c, r) && Enabled(c, step)
    ensures Enabled(r, step) && SameCore(past, Next(max, c, step), Next(max, r, step))
  {
    match step
    case Create(name, sizeMB, id, backend, f) =>
      CreateIgnoresPast(past, c.world, r.world, name, sizeMB, id, backend, f);
    case Attach(name, nodeID, f) => AttachIgnoresPast(past, c.world, r.world, name, nodeID, f);
    case Release(name, kind, f) => ReleaseIgnoresPast(past, c.world, r.world, name, kind, f);
    case Reconcile(name, reachable, f) => ReconcileIgnoresPast(past, c.world, r.world, name, reachable, f);
    case Advance(i, choice) => WorkIgnoresPast(past, max, c.world, r.world, c.workers[i], choice);
    case Cancel =>
  }

  lemma {:induction false} RunIgnoresPast(past: seq<Entry>, max: nat, c: Core, r: Core, steps: seq<Step>)
    requires SameCore(past, c, r) && IsRun(max, c, steps)
    ensures IsRun(max, r, steps) && SameCore(past, Run(max, c, steps), Run(max, r, steps))
    decreases |steps|
  {
    if steps != [] {
      NextIgnoresPast(past, max, c, r, steps[0]);
      RunIgnoresPast(past, max, Next(max, c, steps[0]), Next(max, r, steps[0]), steps[1..]);
    }
  }

  // ----- Counting from now on -----

  ghost predicate HasId(db: map<string, Volume>, id: string) {
    exists n <- db :: db[n].id == id
  }

  /** The state of the record with an ID, or how it was born if there is none. */
  ghost function StateNow(c: Core, id: string): State
    requires id in c.born
  {
    if HasId(c.world.db, id) then var n :| n in c.world.db && c.world.db[n].id == id; c.world.db[n].state
    else c.born[id]
  }

  /** The system with an empty log, in which every volume is born as it is now. */
  ghost function Afresh(c: Core): Core {
    c.(world := c.world.(log := []), born := map id | id in c.born :: StateNow(c, id))
  }

  ghost predicate NobodyWorks(c: Core) {
    forall i :: !Live(c, i)
  }

  lemma AfreshIsCounted(max: nat, c: Core)
    requires max >= 1 && Inv(max, c) && NobodyWorks(c)
    ensures var r := Afresh(c);
            SameCore(c.world.log, c, r) && Inv(max, r) && Audited(r) && Counted(max, r)
  {
    var r := Afresh(c);
    assert forall i :: Live(r, i) == Live(c, i);
    forall n ensures InvAt(max, r, n) && ReplaysAt(r, n) && CountedAt(max, r, n) {
      assert InvAt(max, c, n);
      if n in c.world.db {
        assert HasId(c.world.db, c.world.db[n].id);
      }
    }
    forall n ensures FiledAt(r, n) {
      assert InvAt(max, r, n);
    }
  }

  /** A record keeps its ID and its birth; a new one is born pending under a new ID. */
  lemma {:induction false} RunKeepsIdentity(max: nat, c: Core, steps: seq<Step>, name: string)
    requires Filed(c) && IsRun(max, c, steps)
    ensures var c' := Run(max, c, steps);
            && Filed(c')
            && (forall id <- c.born :: id in c'.born && c'.born[id] == c.born[id])
            && (name in c.world.db ==> name in c'.world.db && c'.world.db[name].id == c.world.db[name].id)
            && (name in c'.world.db && name !in c.world.db ==>
                  && c'.world.db[name].id !in c.born
                  && c'.world.db[name].id in c'.born && c'.born[c'.world.db[name].id] == Pending)
    decreases |steps|
  {
    if steps != [] {
      var next := Next(max, c, steps[0]);
      StepKeepsFiled(max, c, steps[0]);
      RunKeepsIdentity(max, next, steps[1..], name);
      OneStepKeepsIdentity(max, c, steps[0], name);
      assert FiledAt(next, name);
    }
  }

  lemma OneStepKeepsIdentity(max: nat, c: Core, step: Step, name: string)
    requires Filed(c) && Enabled(c, step)
    ensures var c' := Next(max, c, step);
            && (forall id <- c.born :: id in c'.born && c'.born[id] == c.born[id])
            && (name in c.world.db ==> name in c'.world.db && c'.world.db[name].id == c.world.db[name].id)
            && (name in c'.world.db && name !in c.world.db ==>
                  && c'.world.db[name].id !in c.born
                  && c'.world.db[name].id in c'.born && c'.born[c'.world.db[name].id] == Pending)
  {
    if !step.Cancel? {
      BirthsStay(max, c, step);
      IdStays(max, c, step);
      StepIsLocal(max, c, step);
    }
  }

  /**
   Retry accounting from any moment at which nobody works, such as the end of a startup pass.
   In every clean run from there, over the entries since then: errors, together with one for a
   volume that was left failed, are retries plus fails plus one if it is failed now; no
   operation logs more than max - 1 retries; and a fail is logged exactly when the operation
   has logged max errors and the last of them is no longer open.
   */
  lemma RetriesAddUpFromNowOn(max: nat, c: Core, steps: seq<Step>, name: string)
    requires max >= 1 && Inv(max, c) && NobodyWorks(c) && IsRun(max, c, steps) && CleanRun(steps)
    ensures var c' := Run(max, c, steps);
            && c.world.log <= c'.world.log
            && (name in c'.world.db ==>
                  var v := c'.world.db[name];
                  var log := c'.world.log[|c.world.log|..];
                  var t := TallyOf(log, v.id);
                  && Count(log, v.id, EventError)
                     + (if name in c.world.db && IsBroken(c.world.db[name].state) then 1 else 0) ==
                     Count(log, v.id, EventRetry) + Count(log, v.id, EventFail) + (if IsBroken(v.state) then 1 else 0)
                  && t.errors <= max && t.retries <= max - 1 && t.fails <= 1
                  && (t.fails == 1 <==> t.errors == max && !IsBroken(v.state)))
  {
    var r := Afresh(c);
    AfreshIsCounted(max, c);
    RunIgnoresPast(c.world.log, max, c, r, steps);
    RunStaysCounted(max, r, steps);
    RunLogsApiEntries(max, r, steps);
    var c', r' := Run(max, c, steps), Run(max, r, steps);
    assert c'.world.log[|c.world.log|..] == r'.world.log;
    if name in c'.world.db {
      var id := c'.world.db[name].id;
      assert ReplaysAt(r', name) && CountedAt(max, r', name);
      RunKeepsIdentity(max, r, steps, name);
      if name in c.world.db {
        BornAsItWas(c, name);
      }
      ErrorsAreAnswered(r'.world.log, id, r'.born[id]);
      ApiLogsRepairNothing(r'.world.log, id);
    }
  }

  lemma BornAsItWas(c: Core, name: string)
    requires Filed(c) && name in c.world.db
    ensures c.world.db[name].id in c.born && Afresh(c).born[c.world.db[name].id] == c.world.db[name].state
  {
    assert FiledAt(c, name);
    assert HasId(c.world.db, c.world.db[name].id);
  }
}
