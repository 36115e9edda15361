/** The story that the audit log tells, over any number of crashes and restarts. */
module Saga {
  import opened Storage
  import opened Fsm
  import opened Lifecycle
  import opened Engine
  import opened Filing
  import opened Audit
  import opened Startup
  import opened Importing
  import opened Restart
  import opened Chronicle
  import Agreement
  import StartupResults

  ghost predicate Storied(max: nat, own: seq<Entry>, id: string, s: State) {
    exists chapters, open :: Recounts(max, true, own, id, s, chapters, open)
  }

  /** What a startup stage logs. */
  predicate StartupMove(e: Entry) {
    match e.cause
    case Applied(event) => (event.EventError? || event.EventFail?) && Transition(e.fromState, event) == Some(e.toState)
    case Reconciled => IsTransitional(e.fromState) && e.toState == Available
  }

  /** The entry leads from the record's state before to that after. */
  predicate StageLogged(w: World, w': World, v: Volume, e: Entry)
    requires v.name in w.db && v.name in w'.db
  {
    e.volumeID == v.id && e.fromState == w.db[v.name].state && e.toState == w'.db[v.name].state && StartupMove(e)
  }

  /** The record is as it was, and so is the log; or one entry tells how it has moved. */
  predicate LoggedAsMoved(w: World, w': World, v: Volume) {
    v.name in w'.db ==>
      && v.name in w.db
      && if w'.log == w.log then w'.db[v.name].state == w.db[v.name].state
         else |w'.log| == |w.log| + 1 && w'.log[..|w.log|] == w.log && StageLogged(w, w', v, w'.log[|w.log|])
  }

  lemma EventLogs(w: World, v: Volume, event: Event, f: Faults)
    requires v.name in w.db && Owns(w, v) && StartupResults.Faithful(Luck(true, f))
    requires event.EventError? || event.EventFail?
    ensures LoggedAsMoved(w, ApplyIfValid(w, w.db[v.name], event, f), v)
  {
  }

  lemma AlignLogs(w: World, v: Volume, listed: State, nodeID: string, f: Faults)
    requires v.name in w.db && Owns(w, v) && StartupResults.Faithful(Luck(true, f))
    requires w.db[v.name].state == listed && IsTransitional(listed)
    ensures LoggedAsMoved(w, Aligned(w, w.db[v.name], listed, nodeID, f), v)
  {
  }

  lemma StageLogs(policy: DbOnly, w: World, j: Job, c: Luck)
    requires Owns(w, j.volume) && IsTransitional(j.volume.state) && StartupResults.Faithful(c)
    requires j.stage.Align? && j.volume.name in w.db ==> w.db[j.volume.name].state == j.volume.state
    ensures LoggedAsMoved(w, Startup.RunStage(policy, w, j, c).0, j.volume)
  {
    hide ApplyIfValid, Aligned;
    var v := j.volume;
    if v.name in w.db {
      EventLogs(w, v, EventError, c.faults);
      EventLogs(w, v, EventFail, c.faults);
      match j.stage
      case Align(nodeID) => AlignLogs(w, v, v.state, nodeID, c.faults);
      case _ =>
    }
  }

  lemma StartupMoveTells(max: nat, own: seq<Entry>, id: string, e: Entry)
    requires Storied(max, own, id, e.fromState) && StartupMove(e) && e.volumeID == id
    ensures Storied(max, own + [e], id, e.toState)
  {
    hide Transition, Ahead, Completed, Told, Opening, ChapterOk;
    MovesTransitional(e);
    var chapters, open :| Recounts(max, true, own, id, e.fromState, chapters, open);
    var p := open.value;
    EntryContinues(max, true, own, id, chapters, p, e);
    var chapters' := if Ahead(p, e).Some? then chapters else chapters + [Completed(max, p, e)];
    assert Recounts(max, true, own + [e], id, e.toState, chapters', Ahead(p, e));
  }

  lemma StageTells(max: nat, policy: DbOnly, w: World, j: Job, c: Luck)
    requires Owns(w, j.volume) && IsTransitional(j.volume.state) && StartupResults.Faithful(c)
    requires j.stage.Align? && j.volume.name in w.db ==> w.db[j.volume.name].state == j.volume.state
    requires j.volume.name in w.db ==> Storied(max, Own(w.log, j.volume.id), j.volume.id, w.db[j.volume.name].state)
    ensures var w', v := Startup.RunStage(policy, w, j, c).0, j.volume;
            v.name in w'.db ==> Storied(max, Own(w'.log, v.id), v.id, w'.db[v.name].state)
  {
    StageLogs(policy, w, j, c);
    var w', v := Startup.RunStage(policy, w, j, c).0, j.volume;
    hide Startup.RunStage, Own, Storied, StartupMove;
    if v.name in w'.db && w'.log != w.log {
      var e := w'.log[|w.log|];
      assert w'.log == w.log + [e];
      OwnAppend(w.log, e, v.id);
      StartupMoveTells(max, Own(w.log, v.id), v.id, e);
    }
  }

  lemma MovesTransitional(e: Entry)
    requires StartupMove(e)
    ensures IsTransitional(e.fromState)
  {
  }

  lemma {:induction false} AloneTells(
    max: nat, policy: DbOnly, w: World, v: Volume, born: State, luck: nat -> Luck, t: nat)
    requires v.name in w.db && w.db[v.name] == v && IsTransitional(v.state) && StartupResults.Follows(w, v, born)
    requires StartupResults.AlwaysFaithful(luck) && Storied(max, Own(w.log, v.id), v.id, v.state)
    ensures var w' := Alone(policy, w, Begin(v), luck, t).0;
            v.name in w'.db ==> Storied(max, Own(w'.log, v.id), v.id, w'.db[v.name].state)
    decreases t
  {
    hide Storied, StartupResults.Follows, Startup.RunStage, Own, WritesOwn;
    if t > 0 {
      AloneTells(max, policy, w, v, born, luck, t - 1);
      StartupResults.AloneFollows(policy, w, v, born, luck, t - 1);
      var (w', j') := Alone(policy, w, Begin(v), luck, t - 1);
      StageTells(max, policy, w', j', luck(t - 1));
    }
  }

  /** A record that was there before the pass, listed or not. */
  lemma OldRecordStaysTold(max: nat, c: Core, b: Boot, n: string)
    requires Filed(c) && Audited(c) && AllTold(max, true, c) && BootOk(c.world, b) && FaithfulBoot(b)
    ensures var w1 := Repair(c.world, b);
            n in w1.db ==> Storied(max, Own(w1.log, w1.db[n].id), w1.db[n].id, w1.db[n].state)
  {
    RepairKnows(c, b, n);
    var w, w1 := c.world, Repair(c.world, b);
    if n in w1.db {
      assert FiledAt(c, n) && ReplaysAt(c, n) && ToldAt(max, true, c, n);
      var v := w.db[n];
      hide Recounts, Own;
      assert Storied(max, Own(w.log, v.id), v.id, v.state);
      if v in b.listed {
        var i :| 0 <= i < |b.listed| && b.listed[i] == v;
        ListedIsTransitional(w, b, v);
        ListedStaysTold(max, w, b, i, c.born[v.id]);
      } else {
        UnlistedIsBystander(c, b, v);
        StartupResults.BystandersAreSpared(b.policy, w, b.listed, b.oracle, b.schedule, v);
        assert Load(w1, n, true) == Load(w, n, true);
      }
    }
  }

  lemma ListedStaysTold(max: nat, w: World, b: Boot, i: nat, born: State)
    requires BootOk(w, b) && FaithfulBoot(b) && i < |b.listed| && b.listed[i] in b.listed
    requires IsTransitional(b.listed[i].state) && StartupResults.Follows(w, b.listed[i], born)
    requires Storied(max, Own(w.log, b.listed[i].id), b.listed[i].id, b.listed[i].state)
    ensures var v, w1 := b.listed[i], Repair(w, b);
            v.name in w1.db ==> Storied(max, Own(w1.log, v.id), v.id, w1.db[v.name].state)
  {
    hide Storied, StartupResults.Follows, Own;
    var v := b.listed[i];
    SchedulesAreIndependent(b.policy, w, b.listed, b.oracle, b.schedule);
    var s := StartupResults.PassResult(b.policy, w, b.listed, b.oracle, b.schedule);
    assert OneAsIfAlone(b.policy, w, v, b.oracle(i), s.world, s.jobs[i], s.turns[i]);
    AloneTells(max, b.policy, w, v, born, b.oracle(i), s.turns[i]);
    assert Load(s.world, v.name, true) == Load(Alone(b.policy, w, Begin(v), b.oracle(i), s.turns[i]).0, v.name, true);
  }

  lemma RebootStaysTold(max: nat, c: Core, b: Boot)
    requires Filed(c) && Audited(c) && AllTold(max, true, c) && BootOk(c.world, b) && FreshIds(c, b) && FaithfulBoot(b)
    ensures AllTold(max, true, Rebooted(c, b))
  {
    RebootLogsProperly(c, b);
    var c' := Rebooted(c, b);
    forall n ensures ToldAt(max, true, c', n) {
      OldRecordStaysTold(max, c, b, n);
      ImportKnows(c.world, b, n);
      if n in c'.world.db {
        var v := c'.world.db[n];
        if n !in Repair(c.world, b).db {
          OwnNothing(c'.world.log, v.id);
          NothingTold(max, true, v.id, v.state);
        }
        assert Storied(max, Own(c'.world.log, v.id), v.id, v.state);
        var chapters, open :| Recounts(max, true, Own(c'.world.log, v.id), v.id, v.state, chapters, open);
        assert RecountsAt(max, true, c', n, chapters, open);
      }
    }
  }

  /** The policy is the same in all lives. */
  ghost predicate AllUnder(max: nat, lives: seq<Life>) {
    forall l <- lives :: l.max == max
  }

  lemma {:induction false} LivesStayTold(max: nat, c: Core, lives: seq<Life>)
    requires max >= 1 && Filed(c) && Audited(c) && AllTold(max, true, c) && AreLives(c, lives) && AllUnder(max, lives)
    ensures AllTold(max, true, Lived(c, lives))
    decreases |lives|
  {
    if lives != [] {
      var l := lives[0];
      RebootStaysAudited(c, l.boot);
      RebootStaysTold(max, c, l.boot);
      RunStaysAudited(max, Rebooted(c, l.boot), l.steps);
      RunStaysTold(max, true, Rebooted(c, l.boot), l.steps);
      LivesStayTold(max, Run(max, Rebooted(c, l.boot), l.steps), lives[1..]);
    }
  }

  /**
   The whole audit log of a volume, over any number of crashes and restarts, each at any moment,
   and under all faults but lost entries and unacknowledged updates: operations and repairs, and
   operations cut short, each its request, errors and retries up to where the crash left it, and
   then the one startup entry that ended it; and, exactly in a transitional state, the opening
   of an operation that led to that state, whose worker, if there is one, has come as far.
   */
  lemma EveryLifeIsAStory(max: nat, lives: seq<Life>, name: string)
    requires max >= 1 && AreLives(EMPTY, lives) && AllUnder(max, lives)
    ensures var c := Lived(EMPTY, lives);
            name in c.world.db ==> exists chapters, open :: RecountsAt(max, true, c, name, chapters, open)
  {
    assert AllTold(max, true, EMPTY);
    Agreement.EmptyInv(max);
    LivesStayTold(max, EMPTY, lives);
    assert ToldAt(max, true, Lived(EMPTY, lives), name);
  }
}
