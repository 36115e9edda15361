/**
 Crashes and restarts: the workers are gone, the stores and the log are as they were left,
 and the startup pass runs before the next requests.  What the runs before and after keep,
 they keep across it.
 */
module Restart {
  import opened Storage
  import opened Fsm
  import opened Lifecycle
  import opened Engine
  import opened Filing
  import opened Agreement
  import opened Audit
  import opened Startup
  import opened Importing
  import StartupResults
  import Accounting
  import Exact

  function IdsOf(db: map<string, Volume>): set<string> {
    set n | n in db :: db[n].id
  }

  /** The system after a crash in any state and a startup pass; an imported volume is born available. */
  ghost function Rebooted(c: Core, b: Boot): Core
    requires BootOk(c.world, b)
  {
    var w := Booted(c.world, b);
    Core(w, map id | id in c.born.Keys + IdsOf(w.db) :: if id in c.born then c.born[id] else Available, [], false)
  }

  /** The IDs of imported volumes are new, and differ. */
  ghost predicate FreshIds(c: Core, b: Boot) {
    && (forall n :: b.ids(n) !in c.born)
    && (forall m, n | m != n :: b.ids(m) != b.ids(n))
  }

  // ----- Where the records of a pass come from -----

  lemma RepairKnows(c: Core, b: Boot, n: string)
    requires Filed(c) && BootOk(c.world, b)
    ensures var w1 := Repair(c.world, b);
            && w1.backend == c.world.backend
            && (n in w1.db ==> n in c.world.db && w1.db[n].name == n && SameVolume(c.world.db[n], w1.db[n]))
  {
    SchedulesAreIndependent(b.policy, c.world, b.listed, b.oracle, b.schedule);
    var s := StartupResults.PassResult(b.policy, c.world, b.listed, b.oracle, b.schedule);
    assert FiledAt(c, n);
    if !Unlisted(b.listed, n) {
      var v :| v in b.listed && v.name == n;
      var i :| 0 <= i < |b.listed| && b.listed[i] == v;
      assert OneAsIfAlone(b.policy, c.world, b.listed[i], b.oracle(i), s.world, s.jobs[i], s.turns[i]);
      StartupResults.AloneKeepsVolume(b.policy, c.world, v, b.oracle(i), s.turns[i]);
      assert Load(s.world, n, true) == Load(Alone(b.policy, c.world, Begin(v), b.oracle(i), s.turns[i]).0, n, true);
    }
  }

  /** The imported records are those whose IDs are new; nothing but records is written. */
  lemma ImportKnows(w: World, b: Boot, n: string)
    requires BootOk(w, b)
    ensures var w1, w2 := Repair(w, b), Booted(w, b);
            && w2 == w1.(db := w2.db)
            && (n in w1.db ==> n in w2.db && w2.db[n] == w1.db[n])
            && (n in w2.db && n !in w1.db ==>
                  && n in w1.backend
                  && w2.db[n] == Volume(b.ids(n), n, w1.backend[n].sizeMB, Available, "mock", ""))
  {
    if b.importing {
      var w1, w2 := Repair(w, b), Booted(w, b);
      ImportsFit(w1, b.vols, b.ids, b.faults, b.imports);
      var s := Imported(w1, b.vols, b.ids, b.faults, b.imports);
      if Unlisted(b.vols, n) {
        assert Load(w2, n, true) == Load(w1, n, true);
      } else {
        var v :| v in b.vols && v.name == n;
        var i :| 0 <= i < |b.vols| && b.vols[i] == v;
        assert ImporterFits(w1, w2, b.vols[i], s.jobs[i], b.ids(n), b.faults(n));
        assert Load(w2, n, true) == if n in w2.db then Some(w2.db[n]) else None;
      }
    }
  }

  /**
   Whatever fails and however it is scheduled, a pass leaves the backend alone; and a record that was
   not there before it has a fresh ID, its own name, the size that the backend holds, and no node,
   and is available, wherever the backend has the volume.
   */
  lemma NewRecordsNameNoNode(c: Core, b: Boot, n: string)
    requires Filed(c) && BootOk(c.world, b)
    ensures var w, w' := c.world, Booted(c.world, b);
            && w'.backend == w.backend
            && (n in w'.db && n !in w.db ==>
                  && n in w.backend
                  && w'.db[n].id == b.ids(n) && w'.db[n].name == n && w'.db[n].sizeMB == w.backend[n].sizeMB
                  && w'.db[n].state == Available && w'.db[n].backend == "mock" && w'.db[n].nodeID == "")
            && (n in w.db && n in w'.db && n in Repair(w, b).db ==> SameVolume(w.db[n], w'.db[n]))
  {
    RepairKnows(c, b, n);
    ImportKnows(c.world, b, n);
  }

  lemma RebootKeepsFiled(c: Core, b: Boot)
    requires Filed(c) && BootOk(c.world, b) && FreshIds(c, b)
    ensures Filed(Rebooted(c, b))
  {
    var c' := Rebooted(c, b);
    var w' := c'.world;
    forall n ensures FiledAt(c', n) {
      RepairKnows(c, b, n);
      ImportKnows(c.world, b, n);
    }
    forall m, n | m in w'.db && n in w'.db && m != n ensures w'.db[m].id != w'.db[n].id {
      RepairKnows(c, b, m);
      RepairKnows(c, b, n);
      ImportKnows(c.world, b, m);
      ImportKnows(c.world, b, n);
      assert FiledAt(c, m) && FiledAt(c, n);
    }
  }

  // ----- The audit log across restarts -----

  /** At startup, a saved entry and a written record go together. */
  ghost predicate FaithfulBoot(b: Boot) {
    forall i | 0 <= i < |b.listed| :: StartupResults.AlwaysFaithful(b.oracle(i))
  }

  lemma ListedIsTransitional(w: World, b: Boot, v: Volume)
    requires BootOk(w, b) && v in b.listed
    ensures v.name in w.db && w.db[v.name] == v && IsTransitional(v.state)
  {
  }

  /** A record that was there before the pass replays, listed or not. */
  lemma OldRecordReplays(c: Core, b: Boot, n: string)
    requires Filed(c) && Audited(c) && BootOk(c.world, b) && FaithfulBoot(b)
    ensures var w1 := Repair(c.world, b);
            n in w1.db ==>
              && n in c.world.db && w1.db[n].id == c.world.db[n].id && w1.db[n].id in c.born
              && Replay(w1.log, w1.db[n].id, c.born[w1.db[n].id]) == Some(w1.db[n].state)
  {
    RepairKnows(c, b, n);
    var w, w1 := c.world, Repair(c.world, b);
    if n in w1.db {
      assert FiledAt(c, n) && ReplaysAt(c, n);
      var v := w.db[n];
      if v in b.listed {
        var i :| 0 <= i < |b.listed| && b.listed[i] == v;
        ListedIsTransitional(w, b, v);
        StartupResults.PassKeepsAudit(b.policy, w, b.listed, b.oracle, b.schedule, i, c.born[v.id]);
      } else {
        UnlistedIsBystander(c, b, v);
        StartupResults.BystandersAreSpared(b.policy, w, b.listed, b.oracle, b.schedule, v);
        StartupResults.ReplayIsOwn(w.log, v.id, c.born[v.id]);
        StartupResults.ReplayIsOwn(w1.log, v.id, c.born[v.id]);
        assert Load(w1, n, true) == Load(w, n, true);
      }
    }
  }

  lemma UnlistedIsBystander(c: Core, b: Boot, v: Volume)
    requires Filed(c) && BootOk(c.world, b) && v.name in c.world.db && c.world.db[v.name] == v && v !in b.listed
    ensures forall u <- b.listed :: u.name != v.name && u.id != v.id
  {
    forall u | u in b.listed ensures u.name != v.name && u.id != v.id {
      ListedIsTransitional(c.world, b, u);
    }
  }

  /** The log still names known volumes only, and every entry is an edge of the table or a repair. */
  lemma RebootLogsProperly(c: Core, b: Boot)
    requires Filed(c) && Audited(c) && BootOk(c.world, b)
    ensures EntriesOk(Booted(c.world, b).log)
    ensures forall e <- Booted(c.world, b).log :: e.volumeID in c.born
  {
    var w, w1 := c.world, Repair(c.world, b);
    ImportKnows(w, b, "");
    forall v | v in b.listed ensures IsTransitional(v.state) && v.id in c.born {
      ListedIsTransitional(w, b, v);
      assert FiledAt(c, v.name);
    }
    StartupResults.PassLogsProperly(b.policy, w, b.listed, b.oracle, b.schedule);
    forall e | e in w1.log ensures EntryOk(e) && e.volumeID in c.born {
      assert w1.log == w.log + w1.log[|w.log|..];
      assert e in w.log || e in w1.log[|w.log|..];
    }
  }

  /**
   A startup pass keeps the log in step with every record: repaired, left alone or imported, at
   every moment of every schedule, whether or not the backend answers.
   */
  lemma RebootStaysAudited(c: Core, b: Boot)
    requires Filed(c) && Audited(c) && BootOk(c.world, b) && FreshIds(c, b) && FaithfulBoot(b)
    ensures Filed(Rebooted(c, b)) && Audited(Rebooted(c, b))
  {
    RebootKeepsFiled(c, b);
    RebootLogsProperly(c, b);
    var c' := Rebooted(c, b);
    forall n ensures ReplaysAt(c', n) {
      OldRecordReplays(c, b, n);
      ImportKnows(c.world, b, n);
      if n in c'.world.db && n !in Repair(c.world, b).db {
        ReplayNothing(c'.world.log, b.ids(n), Available);
      }
    }
  }

  /** One life of the process: the startup pass, then API calls and workers, up to a crash at any moment. */
  datatype Life = Life(boot: Boot, max: nat, steps: seq<Step>)

  ghost predicate AreLives(c: Core, lives: seq<Life>)
    decreases |lives|
  {
    lives == [] ||
    (var l := lives[0];
     && BootOk(c.world, l.boot) && FreshIds(c, l.boot) && FaithfulBoot(l.boot)
     && IsRun(l.max, Rebooted(c, l.boot), l.steps) && CleanRun(l.steps)
     && AreLives(Run(l.max, Rebooted(c, l.boot), l.steps), lives[1..]))
  }

  ghost function Lived(c: Core, lives: seq<Life>): Core
    requires AreLives(c, lives)
    decreases |lives|
  {
    if lives == [] then c
    else Lived(Run(lives[0].max, Rebooted(c, lives[0].boot), lives[0].steps), lives[1..])
  }

  lemma {:induction false} LivesStayAudited(c: Core, lives: seq<Life>)
    requires Filed(c) && Audited(c) && AreLives(c, lives)
    ensures Filed(Lived(c, lives)) && Audited(Lived(c, lives))
    decreases |lives|
  {
    if lives != [] {
      var l := lives[0];
      RebootStaysAudited(c, l.boot);
      RunStaysAudited(l.max, Rebooted(c, l.boot), l.steps);
      LivesStayAudited(Run(l.max, Rebooted(c, l.boot), l.steps), lives[1..]);
    }
  }

  lemma {:induction false} RunKeepsBirths(max: nat, c: Core, steps: seq<Step>, id: string)
    requires IsRun(max, c, steps) && (id in c.born ==> !IsBroken(c.born[id]))
    ensures id in Run(max, c, steps).born ==> !IsBroken(Run(max, c, steps).born[id])
    decreases |steps|
  {
    if steps != [] {
      RunKeepsBirths(max, Next(max, c, steps[0]), steps[1..], id);
    }
  }

  lemma {:induction false} LivesKeepBirths(c: Core, lives: seq<Life>, id: string)
    requires AreLives(c, lives) && (id in c.born ==> !IsBroken(c.born[id]))
    ensures id in Lived(c, lives).born ==> !IsBroken(Lived(c, lives).born[id])
    decreases |lives|
  {
    if lives != [] {
      RunKeepsBirths(lives[0].max, Rebooted(c, lives[0].boot), lives[0].steps, id);
      LivesKeepBirths(Run(lives[0].max, Rebooted(c, lives[0].boot), lives[0].steps), lives[1..], id);
    }
  }

  /**
   The audit log replays to the database in every state of every life, however often the
   process crashes and whatever its startup passes repair and import: a volume's entries chain
   from the state of its insertion to its present one, each an edge of the table or a repair
   that leaves the error state or, at startup, a transitional one; and every error is answered
   by a retry, a fail or a startup repair, except one that has just happened.
   */
  lemma LogTellsEveryLife(lives: seq<Life>, name: string)
    requires AreLives(EMPTY, lives)
    ensures var c := Lived(EMPTY, lives);
            && (forall e <- c.world.log :: EntryOk(e))
            && (name in c.world.db ==>
                  var v := c.world.db[name];
                  && v.id in c.born
                  && Replay(c.world.log, v.id, c.born[v.id]) == Some(v.state)
                  && Count(c.world.log, v.id, EventError) ==
                     Count(c.world.log, v.id, EventRetry) + Count(c.world.log, v.id, EventFail)
                     + Repairs(c.world.log, v.id) + if IsBroken(v.state) then 1 else 0)
  {
    EmptyInv(1);
    LivesStayAudited(EMPTY, lives);
    var c := Lived(EMPTY, lives);
    if name in c.world.db {
      assert ReplaysAt(c, name);
      LivesKeepBirths(EMPTY, lives, c.world.db[name].id);
      ErrorsAreAnswered(c.world.log, c.world.db[name].id, c.born[c.world.db[name].id]);
    }
  }

  // ----- The stores across a restart -----

  /** Every transitional record that the backend answers for is repaired to something that fits what it holds. */
  ghost predicate RepairsFit(w: World, policy: DbOnly, reach: string -> bool) {
    forall n <- w.db | IsTransitional(w.db[n].state) && reach(n) :: StartupResults.RepairFits(policy, w, n)
  }

  /** The backend answers for every transitional record, and holds its volume unless missing ones are not ignored. */
  ghost predicate NothingLeft(w: World, policy: DbOnly, reach: string -> bool) {
    forall n <- w.db | IsTransitional(w.db[n].state) :: reach(n) && (policy.Ignore? ==> n in w.backend)
  }

  /** The pass runs to its end on a working database; the backend answers exactly for these volumes. */
  ghost predicate Reaches(c: Core, b: Boot, reach: string -> bool) {
    BootOk(c.world, b) && RunsToEnd(c.world, b) && StartupResults.Answers(b.listed, b.oracle, reach)
  }

  /** When the stores agree, the pass finds nothing to import. */
  lemma AgreementLeavesNothingToImport(max: nat, c: Core, b: Boot, reach: string -> bool)
    requires Inv(max, c) && Reaches(c, b, reach)
    ensures Booted(c.world, b) == Repair(c.world, b)
    ensures StartupResults.RepairedWhere(b.policy, c.world, reach, Booted(c.world, b))
    ensures Booted(c.world, b).backend == c.world.backend
  {
    var w, w1 := c.world, Repair(c.world, b);
    forall n | n in w.db ensures w.db[n].name == n {
      assert FiledAt(c, n);
    }
    StartupResults.PassRepairsExactly(b.policy, w, b.listed, b.oracle, reach, b.schedule);
    if b.importing {
      forall n | n in w1.backend ensures n in w1.db {
        assert InvAt(max, c, n);
        assert Load(w1, n, true) == StartupResults.RecordAfter(b.policy, w, reach, n);
      }
      NothingToImport(w1, b.vols, b.ids, b.faults, b.imports);
    }
  }

  /** One name: the stores agree afterwards exactly when it is not repaired or its repair fits. */
  lemma AgreesAfterwards(max: nat, c: Core, policy: DbOnly, reach: string -> bool, w': World, n: string)
    requires Inv(max, c) && w'.backend == c.world.backend
    requires Load(w', n, true) == StartupResults.RecordAfter(policy, c.world, reach, n)
    ensures AgreeAt(w', n) <==>
            (n in c.world.db && IsTransitional(c.world.db[n].state) && reach(n) ==>
               StartupResults.RepairFits(policy, c.world, n))
  {
    assert InvAt(max, c, n);
    var w := c.world;
    if n in w.db && IsTransitional(w.db[n].state) && reach(n) {
      StartupResults.RepairAgreesExactlyWhen(policy, w, w', n);
    }
  }

  /**
   Crash in any reachable state, restart on a working database, in any schedule, with a backend
   that answers for some volumes and not for others: the system is again in the invariant of
   all later runs exactly when every repair that is made fits what the backend holds.
   */
  lemma RestartAgreesExactlyWhen(max: nat, c: Core, b: Boot, reach: string -> bool)
    requires Inv(max, c) && Reaches(c, b, reach) && FreshIds(c, b)
    ensures Inv(max, Rebooted(c, b)) <==> RepairsFit(c.world, b.policy, reach)
  {
    AgreementLeavesNothingToImport(max, c, b, reach);
    RebootKeepsFiled(c, b);
    var c' := Rebooted(c, b);
    forall n
      ensures InvAt(max, c', n) <==>
              (n in c.world.db && IsTransitional(c.world.db[n].state) && reach(n) ==>
                 StartupResults.RepairFits(b.policy, c.world, n))
    {
      assert FiledAt(c', n);
      assert Load(c'.world, n, true) == StartupResults.RecordAfter(b.policy, c.world, reach, n);
      AgreesAfterwards(max, c, b.policy, reach, c'.world, n);
    }
    if Inv(max, c') {
      forall n | n in c.world.db && IsTransitional(c.world.db[n].state) && reach(n)
        ensures StartupResults.RepairFits(b.policy, c.world, n)
      {
        assert InvAt(max, c', n);
      }
    }
  }

  /**
   On the in-memory backend, which answers exactly for what it holds, the policy has no say:
   the invariant holds again exactly when no volume that is found in progress is on a node,
   unless it was to be deleted.
   */
  lemma RestartOnMockAgreesExactlyWhen(max: nat, c: Core, b: Boot)
    requires Inv(max, c) && Reaches(c, b, StartupResults.AnswersOnMock(c.world)) && FreshIds(c, b)
    ensures Inv(max, Rebooted(c, b)) <==>
            forall n <- c.world.db | IsTransitional(c.world.db[n].state) && n in c.world.backend ::
              c.world.backend[n].state == Available || KindOf(c.world.db[n].state).DeleteOp?
  {
    RestartAgreesExactlyWhen(max, c, b, StartupResults.AnswersOnMock(c.world));
  }

  /** A worker exactly for every transitional volume, which here means none of either: exactly when none is left. */
  lemma RestartIsExactExactlyWhen(max: nat, c: Core, b: Boot, reach: string -> bool)
    requires Inv(max, c) && Reaches(c, b, reach)
    ensures Exact.Exactly(Rebooted(c, b)) <==> NothingLeft(c.world, b.policy, reach)
  {
    AgreementLeavesNothingToImport(max, c, b, reach);
    var c', w := Rebooted(c, b), c.world;
    forall n
      ensures Exact.ExactAt(c', n) <==>
              (n in w.db && IsTransitional(w.db[n].state) ==> reach(n) && (b.policy.Ignore? ==> n in w.backend))
    {
      assert Load(c'.world, n, true) == StartupResults.RecordAfter(b.policy, w, reach, n);
    }
    if !NothingLeft(w, b.policy, reach) {
      var n :| n in w.db && IsTransitional(w.db[n].state) && !(reach(n) && (b.policy.Ignore? ==> n in w.backend));
      assert !Exact.ExactAt(c', n);
    }
  }

  /** After such a restart the stores agree in every later run, and one worker at most serves a volume. */
  lemma StoresAgreeAfterRestart(max: nat, c: Core, b: Boot, reach: string -> bool, steps: seq<Step>, name: string)
    requires max >= 1 && Inv(max, c) && Reaches(c, b, reach) && FreshIds(c, b)
    requires RepairsFit(c.world, b.policy, reach) && IsRun(max, Rebooted(c, b), steps)
    ensures var c' := Run(max, Rebooted(c, b), steps);
            && SameStory(c'.world, name)
            && (forall i, j | LiveFor(c', i, name) && LiveFor(c', j, name) :: i == j)
  {
    RestartAgreesExactlyWhen(max, c, b, reach);
    hide Rebooted, RepairsFit, Reaches;
    RunKeeps(max, Rebooted(c, b), steps);
    assert InvAt(max, Run(max, Rebooted(c, b), steps), name);
  }

  /** And if nothing was left, in every later run without faults a worker serves exactly the transitional volumes. */
  lemma OneWorkerAfterRestart(max: nat, c: Core, b: Boot, reach: string -> bool, steps: seq<Step>, name: string)
    requires max >= 1 && Inv(max, c) && Reaches(c, b, reach) && FreshIds(c, b)
    requires RepairsFit(c.world, b.policy, reach) && NothingLeft(c.world, b.policy, reach)
    requires IsRun(max, Rebooted(c, b), steps) && Exact.SoundRun(steps)
    ensures var c' := Run(max, Rebooted(c, b), steps);
            name in c'.world.db && IsTransitional(c'.world.db[name].state) <==> exists i :: LiveFor(c', i, name)
  {
    RestartAgreesExactlyWhen(max, c, b, reach);
    RestartIsExactExactlyWhen(max, c, b, reach);
    hide Rebooted, Inv, Reaches;
    Exact.RunStaysExact(max, Rebooted(c, b), steps);
    assert Exact.ExactAt(Run(max, Rebooted(c, b), steps), name);
  }

  /** And retries add up in the entries since such a restart, whatever the log held before. */
  lemma RetriesAddUpAfterRestart(max: nat, c: Core, b: Boot, reach: string -> bool, steps: seq<Step>, name: string)
    requires max >= 1 && Inv(max, c) && Reaches(c, b, reach) && FreshIds(c, b)
    requires RepairsFit(c.world, b.policy, reach) && IsRun(max, Rebooted(c, b), steps) && CleanRun(steps)
    ensures var start, c' := Rebooted(c, b), Run(max, Rebooted(c, b), steps);
            && start.world.log <= c'.world.log
            && (name in c'.world.db ==>
                  var t := TallyOf(c'.world.log[|start.world.log|..], c'.world.db[name].id);
                  && t.errors <= max && t.retries <= max - 1 && t.fails <= 1
                  && (t.fails == 1 <==> t.errors == max && !IsBroken(c'.world.db[name].state)))
  {
    RestartAgreesExactlyWhen(max, c, b, reach);
    hide Inv;
    Accounting.RetriesAddUpFromNowOn(max, Rebooted(c, b), steps, name);
  }
}
