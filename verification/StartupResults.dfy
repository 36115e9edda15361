/** What the startup pass establishes, however its goroutines are scheduled. */
module StartupResults {
  import opened Storage
  import opened Fsm
  import opened Lifecycle
  import opened Startup
  import Agreement
  import Audit
  import Filing

  // ----- Complete schedules -----

  lemma {:induction false} AloneStable(policy: DbOnly, w: World, j: Job, luck: nat -> Luck, t: nat, more: nat)
    requires Alone(policy, w, j, luck, t).1.stage.Over?
    ensures Alone(policy, w, j, luck, t + more) == Alone(policy, w, j, luck, t)
    decreases more
  {
    if more > 0 {
      AloneStable(policy, w, j, luck, t, more - 1);
    }
  }

  /** Three turns are enough. */
  lemma {:induction false} AloneEnds(policy: DbOnly, w: World, j: Job, luck: nat -> Luck, t: nat)
    ensures var j' := Alone(policy, w, j, luck, t).1;
            TurnsLeft(j'.stage) <= (if t <= TurnsLeft(j.stage) then TurnsLeft(j.stage) - t else 0)
    decreases t
  {
    if t > 0 {
      AloneEnds(policy, w, j, luck, t - 1);
      var (w', j') := Alone(policy, w, j, luck, t - 1);
      StepAdvances(policy, w', j', luck(t - 1));
    }
  }

  ghost predicate Complete(s: Fleet) {
    forall j <- s.jobs :: j.stage.Over?
  }

  /** The world a schedule leads to. */
  function PassResult(policy: DbOnly, w: World, listed: seq<Volume>, oracle: Oracle, schedule: seq<nat>): Fleet
    requires Within(schedule, |listed|)
  {
    Scheduled(policy, Launch(w, listed), oracle, schedule)
  }

  /** Once over, a goroutine on its own is where three turns lead. */
  lemma ThreeTurnsSuffice(policy: DbOnly, w: World, v: Volume, luck: nat -> Luck, t: nat)
    requires Alone(policy, w, Begin(v), luck, t).1.stage.Over?
    ensures Alone(policy, w, Begin(v), luck, t) == Alone(policy, w, Begin(v), luck, 3)
  {
    hide Startup.RunStage;
    AloneEnds(policy, w, Begin(v), luck, 3);
    if t <= 3 {
      AloneStable(policy, w, Begin(v), luck, t, 3 - t);
    } else {
      AloneStable(policy, w, Begin(v), luck, 3, t - 3);
    }
  }

  /** A finished goroutine has left its volume as three turns on its own would. */
  lemma FinishedAlone(policy: DbOnly, w: World, listed: seq<Volume>, oracle: Oracle, s: Fleet, i: nat)
    requires AsIfAlone(policy, w, listed, oracle, s) && i < |listed| && Complete(s)
    ensures ViewOf(s.world, listed[i]) == ViewOf(Alone(policy, w, Begin(listed[i]), oracle(i), 3).0, listed[i])
  {
    assert s.jobs[i] in s.jobs;
    assert OneAsIfAlone(policy, w, listed[i], oracle(i), s.world, s.jobs[i], s.turns[i]);
    ThreeTurnsSuffice(policy, w, listed[i], oracle(i), s.turns[i]);
  }

  /** Two complete schedules lead to the same database, and to the same entries for every volume. */
  lemma CompleteSchedulesAgree(
    policy: DbOnly, w: World, listed: seq<Volume>, oracle: Oracle, one: seq<nat>, other: seq<nat>)
    requires Listed(w, listed) && Within(one, |listed|) && Within(other, |listed|)
    requires Complete(PassResult(policy, w, listed, oracle, one))
    requires Complete(PassResult(policy, w, listed, oracle, other))
    ensures var w1 := PassResult(policy, w, listed, oracle, one).world;
            var w2 := PassResult(policy, w, listed, oracle, other).world;
            && w1.db == w2.db && w1.backend == w2.backend
            && (forall v <- listed ::
                  Own(w1.log, v.id) == Own(w2.log, v.id) && OwnFeed(w1.feed, v.name) == OwnFeed(w2.feed, v.name))
  {
    SchedulesAreIndependent(policy, w, listed, oracle, one);
    SchedulesAreIndependent(policy, w, listed, oracle, other);
    var w1, w2 := PassResult(policy, w, listed, oracle, one).world, PassResult(policy, w, listed, oracle, other).world;
    forall v | v in listed ensures ViewOf(w1, v) == ViewOf(w2, v) {
      var i :| 0 <= i < |listed| && listed[i] == v;
      FinishedAlone(policy, w, listed, oracle, PassResult(policy, w, listed, oracle, one), i);
      FinishedAlone(policy, w, listed, oracle, PassResult(policy, w, listed, oracle, other), i);
    }
    forall n ensures (n in w1.db <==> n in w2.db) && (n in w1.db ==> w1.db[n] == w2.db[n]) {
      if !Unlisted(listed, n) {
        var v :| v in listed && v.name == n;
        assert ViewOf(w1, v) == ViewOf(w2, v);
        assert Load(w1, n, true) == Load(w2, n, true);
      }
    }
  }

  // ----- What it does to each record, on a working database -----

  /** The database works throughout, whether or not the backend answers. */
  ghost predicate Works(luck: nat -> Luck) {
    forall k: nat :: luck(k).faults == NO_FAULTS
  }

  /**
   The record a reachable backend and a working database lead to.  A missing volume's record
   is erased, ignored or marked, as the policy says; a volume that was being deleted but is
   still there is an error; any other is available, on the node the backend names.
   */
  function Repaired(policy: DbOnly, v: Volume, held: Option<Volume>): Option<Volume>
    requires IsTransitional(v.state)
  {
    match held
    case Some(actual) =>
      if KindOf(v.state).DeleteOp? then Some(v.(state := Error))
      else Some(v.(state := Available, nodeID := actual.nodeID))
    case None =>
      match policy
      case EraseRecord => None
      case Ignore => Some(v)
      case MarkError => Some(v.(state := Error))
  }

  /** State by state: what a repair makes of a record. */
  lemma RepairTable(policy: DbOnly, v: Volume, held: Option<Volume>)
    requires IsTransitional(v.state)
    ensures var v' := Repaired(policy, v, held);
            match held
            case Some(actual) =>
              if v.state == Deleting || v.state == DeletingFailed then v' == Some(v.(state := Error))
              else
                && (v.state == Creating || v.state == Attaching || v.state == Detaching
                    || v.state == CreatingFailed || v.state == AttachingFailed || v.state == DetachingFailed)
                && v' == Some(v.(state := Available, nodeID := actual.nodeID))
            case None =>
              v' == if policy == MarkError then Some(v.(state := Error)) else if policy == Ignore then Some(v) else None
  {
  }

  lemma AloneRepairs(policy: DbOnly, w: World, v: Volume, luck: nat -> Luck)
    requires v.name in w.db && w.db[v.name] == v && IsTransitional(v.state) && Works(luck)
    ensures Load(Alone(policy, w, Begin(v), luck, 3).0, v.name, true)
         == if luck(0).reachable then Repaired(policy, v, Held(w, v.name)) else Some(v)
  {
    AloneUnderFaults(policy, w, v, luck);
  }

  // ----- What it does to each record, whatever fails -----

  /** The read works, and the update takes effect. */
  predicate Lands(c: Luck) {
    c.faults.load && !c.faults.update.Refused?
  }

  /** The record that a goroutine leaves, by the luck of its three stages: the query, and two that may write. */
  function LeftBehind(policy: DbOnly, v: Volume, held: Option<Volume>, luck: nat -> Luck): Option<Volume>
    requires IsTransitional(v.state)
  {
    if !luck(0).reachable || (held.None? && policy.Ignore?) then Some(v)
    else if held.None? && policy.EraseRecord? then (if luck(1).faults.write.Refused? then Some(v) else None)
    else if !Lands(luck(1)) then Some(v)
    else if held.Some? && !KindOf(v.state).DeleteOp? then Some(v.(state := Available, nodeID := held.value.nodeID))
    else if IsBroken(v.state) || Lands(luck(2)) then Some(v.(state := Error))
    else Some(v.(state := Broken(KindOf(v.state))))
  }

  lemma ApplyLands(w: World, v: Volume, event: Event, f: Faults)
    requires v.name in w.db && w.db[v.name] == v
    ensures Load(ApplyIfValid(w, v, event, f), v.name, true) ==
            (if CanTransition(v.state, event) && !f.update.Refused? then
               Some(v.(state := Transition(v.state, event).value))
             else Some(v))
  {
  }

  lemma ErrorStage(policy: DbOnly, w: World, v: Volume, now: Volume, c: Luck)
    requires v.name in w.db && w.db[v.name] == now && now.name == v.name && IsTransitional(now.state)
    ensures var (w', j') := Startup.RunStage(policy, w, Job(v, ToError), c);
            && j' == Job(v, Over)
            && Load(w', v.name, true) == Some(if IsBroken(now.state) && Lands(c) then now.(state := Error) else now)
  {
    hide ApplyIfValid;
    ApplyLands(w, now, EventFail, c.faults);
  }

  lemma BreakStage(policy: DbOnly, w: World, v: Volume, c: Luck)
    requires v.name in w.db && w.db[v.name] == v && IsTransitional(v.state)
    ensures var (w', j') := Startup.RunStage(policy, w, Job(v, ToBroken), c);
            if !c.faults.load then w' == w && j' == Job(v, Over)
            else if IsBusy(v.state) then
              && j' == Job(v, ToError)
              && Load(w', v.name, true) == Some(if Lands(c) then v.(state := Broken(KindOf(v.state))) else v)
            else j' == Job(v, Over) && Load(w', v.name, true) == Some(if Lands(c) then v.(state := Error) else v)
  {
    hide ApplyIfValid;
    ApplyLands(w, v, EventError, c.faults);
    ApplyLands(w, v, EventFail, c.faults);
  }

  /** Whatever fails at each of its stages, a goroutine leaves exactly this record. */
  lemma AloneUnderFaults(policy: DbOnly, w: World, v: Volume, luck: nat -> Luck)
    requires v.name in w.db && w.db[v.name] == v && IsTransitional(v.state)
    ensures Alone(policy, w, Begin(v), luck, 3).1.stage.Over?
    ensures Load(Alone(policy, w, Begin(v), luck, 3).0, v.name, true) == LeftBehind(policy, v, Held(w, v.name), luck)
  {
    var (w1, j1) := Alone(policy, w, Begin(v), luck, 1);
    assert Alone(policy, w, Begin(v), luck, 0) == (w, Begin(v));
    assert (w1, j1) == Startup.RunStage(policy, w, Begin(v), luck(0));
    var (w2, j2) := Alone(policy, w, Begin(v), luck, 2);
    assert (w2, j2) == Startup.RunStage(policy, w1, j1, luck(1));
    assert Alone(policy, w, Begin(v), luck, 3) == Startup.RunStage(policy, w2, j2, luck(2));
    if j1.stage.ToBroken? {
      BreakStage(policy, w, v, luck(1));
      hide ApplyIfValid;
      if j2.stage.ToError? {
        ErrorStage(policy, w2, v, w2.db[v.name], luck(2));
      }
    }
  }

  /** And so it does in every complete schedule of the whole pass. */
  lemma PassUnderFaults(policy: DbOnly, w: World, listed: seq<Volume>, oracle: Oracle, schedule: seq<nat>, i: nat)
    requires Listed(w, listed) && Within(schedule, |listed|) && i < |listed| && IsTransitional(listed[i].state)
    requires Complete(PassResult(policy, w, listed, oracle, schedule))
    ensures Load(PassResult(policy, w, listed, oracle, schedule).world, listed[i].name, true)
         == LeftBehind(policy, listed[i], Held(w, listed[i].name), oracle(i))
  {
    assert listed[i] in listed;
    SchedulesAreIndependent(policy, w, listed, oracle, schedule);
    FinishedAlone(policy, w, listed, oracle, PassResult(policy, w, listed, oracle, schedule), i);
    AloneUnderFaults(policy, w, listed[i], oracle(i));
  }

  /** Exactly the transitional records are listed. */
  ghost predicate ListsTransitional(w: World, listed: seq<Volume>) {
    Listed(w, listed) && forall n <- w.db :: IsTransitional(w.db[n].state) <==> w.db[n] in listed
  }

  /** The database works, and the backend answers exactly for these volumes. */
  ghost predicate Answers(listed: seq<Volume>, oracle: Oracle, reach: string -> bool) {
    forall i | 0 <= i < |listed| :: Works(oracle(i)) && oracle(i)(0).reachable == reach(listed[i].name)
  }

  /** What the pass is to leave under a name. */
  function RecordAfter(policy: DbOnly, w: World, reach: string -> bool, n: string): Option<Volume> {
    if n !in w.db then None
    else if IsTransitional(w.db[n].state) && reach(n) then Repaired(policy, w.db[n], Held(w, n))
    else Some(w.db[n])
  }

  ghost predicate RepairedWhere(policy: DbOnly, w: World, reach: string -> bool, w': World) {
    forall n :: Load(w', n, true) == RecordAfter(policy, w, reach, n)
  }

  lemma PassRepairs(
    policy: DbOnly, w: World, listed: seq<Volume>, oracle: Oracle, reach: string -> bool, s: Fleet, n: string)
    requires ListsTransitional(w, listed) && Answers(listed, oracle, reach) && (n in w.db ==> w.db[n].name == n)
    requires AsIfAlone(policy, w, listed, oracle, s) && Complete(s)
    ensures Load(s.world, n, true) == RecordAfter(policy, w, reach, n)
  {
    if n in w.db && w.db[n] in listed {
      var i :| 0 <= i < |listed| && listed[i] == w.db[n];
      FinishedAlone(policy, w, listed, oracle, s, i);
      AloneRepairs(policy, w, listed[i], oracle(i));
    } else {
      assert Unlisted(listed, n);
    }
  }

  /**
   On a working database the pass repairs, as the policy says, exactly the transitional records
   that the backend answers for, and leaves every other record alone.
   */
  lemma PassRepairsExactly(
    policy: DbOnly, w: World, listed: seq<Volume>, oracle: Oracle, reach: string -> bool, schedule: seq<nat>)
    requires ListsTransitional(w, listed) && (forall n <- w.db :: w.db[n].name == n) && Answers(listed, oracle, reach)
    requires Within(schedule, |listed|) && Complete(PassResult(policy, w, listed, oracle, schedule))
    ensures var w' := PassResult(policy, w, listed, oracle, schedule).world;
            RepairedWhere(policy, w, reach, w') && w'.backend == w.backend
  {
    SchedulesAreIndependent(policy, w, listed, oracle, schedule);
    var s := PassResult(policy, w, listed, oracle, schedule);
    forall n ensures Load(s.world, n, true) == RecordAfter(policy, w, reach, n) {
      PassRepairs(policy, w, listed, oracle, reach, s, n);
    }
  }

  function Everywhere(n: string): bool {
    true
  }

  /** With a backend that always answers: unless missing volumes are to be ignored, nothing transitional remains. */
  lemma PassRepairsEverything(policy: DbOnly, w: World, listed: seq<Volume>, oracle: Oracle, schedule: seq<nat>)
    requires ListsTransitional(w, listed) && (forall n <- w.db :: w.db[n].name == n)
    requires Answers(listed, oracle, Everywhere)
    requires Within(schedule, |listed|) && Complete(PassResult(policy, w, listed, oracle, schedule))
    ensures var w' := PassResult(policy, w, listed, oracle, schedule).world;
            && RepairedWhere(policy, w, Everywhere, w') && w'.backend == w.backend
            && (forall n <- w'.db | IsTransitional(w'.db[n].state) :: policy.Ignore? && n !in w'.backend)
  {
    PassRepairsExactly(policy, w, listed, oracle, Everywhere, schedule);
    OnlyIgnoredIsLeft(policy, w, PassResult(policy, w, listed, oracle, schedule).world);
  }

  lemma OnlyIgnoredIsLeft(policy: DbOnly, w: World, w': World)
    requires RepairedWhere(policy, w, Everywhere, w') && w'.backend == w.backend
    ensures forall n <- w'.db | IsTransitional(w'.db[n].state) :: policy.Ignore? && n !in w'.backend
  {
    forall n | n in w'.db && IsTransitional(w'.db[n].state) ensures policy.Ignore? && n !in w'.backend {
      assert Load(w', n, true) == RecordAfter(policy, w, Everywhere, n);
    }
  }

  // ----- The pass on the in-memory backend -----

  /** The in-memory backend reports a volume it does not hold as an error, so it answers exactly for what it holds. */
  function AnswersOnMock(w: World): string -> bool {
    n => n in w.backend
  }

  /** The record of a held volume after the pass, which no policy has a say in. */
  function FoundAgain(v: Volume, actual: Volume): Volume
    requires IsTransitional(v.state)
  {
    if KindOf(v.state).DeleteOp? then v.(state := Error) else v.(state := Available, nodeID := actual.nodeID)
  }

  /**
   On the in-memory backend a transitional record is repaired exactly when its volume is held,
   and every other record is left alone, the same under every policy and schedule: a missing
   volume is never marked or deleted.
   */
  lemma PassOnMock(policy: DbOnly, w: World, listed: seq<Volume>, oracle: Oracle, schedule: seq<nat>)
    requires ListsTransitional(w, listed) && (forall n <- w.db :: w.db[n].name == n)
    requires Answers(listed, oracle, AnswersOnMock(w))
    requires Within(schedule, |listed|) && Complete(PassResult(policy, w, listed, oracle, schedule))
    ensures var w' := PassResult(policy, w, listed, oracle, schedule).world;
            && w'.db.Keys == w.db.Keys
            && forall n <- w.db ::
                 w'.db[n] == if IsTransitional(w.db[n].state) && n in w.backend then FoundAgain(w.db[n], w.backend[n])
                             else w.db[n]
  {
    PassRepairsExactly(policy, w, listed, oracle, AnswersOnMock(w), schedule);
    var w' := PassResult(policy, w, listed, oracle, schedule).world;
    forall n ensures Load(w', n, true) == RecordAfter(policy, w, AnswersOnMock(w), n) && (n in w'.db <==> n in w.db) {
      assert Load(w', n, true) == RecordAfter(policy, w, AnswersOnMock(w), n);
    }
  }

  // ----- A second pass -----

  /** A goroutine that has nothing to do: its record is missing from the backend, and is to be ignored. */
  predicate NothingToDo(w: World, j: Job) {
    j.stage.Over? || (j.stage.Query? && Held(w, j.volume.name).None?)
  }

  lemma {:induction false} IdleFleetRests(w: World, s: Fleet, oracle: Oracle, schedule: seq<nat>)
    requires WellFormed(s) && s.world == w && Within(schedule, |s.jobs|)
    requires forall j <- s.jobs :: NothingToDo(w, j)
    ensures var s' := Scheduled(Ignore, s, oracle, schedule);
            s'.world == w && forall j <- s'.jobs :: NothingToDo(w, j)
    decreases |schedule|
  {
    if schedule != [] {
      IdleFleetRests(w, s, oracle, schedule[..|schedule| - 1]);
      var s' := Scheduled(Ignore, s, oracle, schedule[..|schedule| - 1]);
      var i := schedule[|schedule| - 1];
      assert s'.jobs[i] in s'.jobs;
    }
  }

  lemma NothingToList(w: World, listed: seq<Volume>)
    requires ListsTransitional(w, listed)
    ensures (forall n <- w.db :: !IsTransitional(w.db[n].state)) ==> listed == []
  {
    if listed != [] {
      assert listed[0] in listed;
    }
  }

  lemma NothingToSchedule(schedule: seq<nat>, n: nat)
    requires Within(schedule, n)
    ensures n == 0 ==> schedule == []
  {
    if schedule != [] {
      assert schedule[0] < n;
    }
  }

  /** A pass over a world in which only ignored, missing volumes are transitional changes nothing. */
  lemma RestedWorldRests(policy: DbOnly, w: World, listed: seq<Volume>, oracle: Oracle, schedule: seq<nat>)
    requires forall n <- w.db | IsTransitional(w.db[n].state) :: policy.Ignore? && n !in w.backend
    requires ListsTransitional(w, listed) && Within(schedule, |listed|)
    ensures PassResult(policy, w, listed, oracle, schedule).world == w
  {
    if policy.Ignore? {
      var s := Launch(w, listed);
      forall j | j in s.jobs ensures NothingToDo(w, j) {
        var i :| 0 <= i < |listed| && s.jobs[i] == j;
        assert listed[i] in listed;
      }
      IdleFleetRests(w, s, oracle, schedule);
    } else {
      NothingToList(w, listed);
      NothingToSchedule(schedule, |listed|);
    }
  }

  // ----- What the pass leaves alone, whatever fails -----

  lemma StageKeepsVolume(policy: DbOnly, w: World, j: Job, c: Luck)
    requires Owns(w, j.volume)
    ensures var w', n := Startup.RunStage(policy, w, j, c).0, j.volume.name;
            n in w'.db ==> n in w.db && Filing.SameVolume(w.db[n], w'.db[n])
  {
  }

  /** A goroutine never changes the size or the backend of its record. */
  lemma {:induction false} AloneKeepsVolume(policy: DbOnly, w: World, v: Volume, luck: nat -> Luck, t: nat)
    requires v.name in w.db && w.db[v.name] == v
    ensures var (w', j') := Alone(policy, w, Begin(v), luck, t);
            j'.volume == v && Owns(w', v) && (v.name in w'.db ==> Filing.SameVolume(v, w'.db[v.name]))
    decreases t
  {
    if t > 0 {
      AloneKeepsVolume(policy, w, v, luck, t - 1);
      var (w', j') := Alone(policy, w, Begin(v), luck, t - 1);
      StageKeepsVolume(policy, w', j', luck(t - 1));
      StepWritesOwn(policy, w', j', luck(t - 1));
      StepAdvances(policy, w', j', luck(t - 1));
    }
  }

  // ----- The stores after the pass -----

  /**
   The condition under which the repair of a transitional record fits what the backend holds:
   the volume is not on a node, or was to be deleted; or it is missing, and that is known or
   was the aim.
   */
  predicate RepairFits(policy: DbOnly, w: World, n: string)
    requires n in w.db && IsTransitional(w.db[n].state)
  {
    match Held(w, n)
    case Some(actual) => actual.state == Available || KindOf(w.db[n].state).DeleteOp?
    case None => !policy.Ignore? || KindOf(w.db[n].state).CreateOp? || KindOf(w.db[n].state).DeleteOp?
  }

  /**
   Startup records a volume that was being attached, or detached, as available even when the
   backend has it on a node.  A repaired record agrees with the backend exactly when it fits.
   */
  lemma RepairAgreesExactlyWhen(policy: DbOnly, w: World, w': World, n: string)
    requires n in w.db && IsTransitional(w.db[n].state) && !Agreement.ShapeOf(w.backend, n).Malformed?
    requires n in w.backend ==> w.backend[n].sizeMB == w.db[n].sizeMB
    requires Load(w', n, true) == Repaired(policy, w.db[n], Held(w, n)) && w'.backend == w.backend
    ensures Agreement.AgreeAt(w', n) <==> RepairFits(policy, w, n)
  {
  }

  // ----- What subscribers are told -----

  /**
   A stage that changes a record's state goes unpublished exactly when it aligns the record, or
   its update took effect while it was reported as failed.
   */
  lemma StageIsSilentExactlyWhen(policy: DbOnly, w: World, j: Job, c: Luck)
    requires Owns(w, j.volume)
    ensures var w', n := Startup.RunStage(policy, w, j, c).0, j.volume.name;
            n in w.db && n in w'.db && w'.db[n].state != w.db[n].state ==>
              (w'.feed == w.feed <==> j.stage.Align? || c.faults.update.Unacknowledged?)
  {
  }

  // ----- The audit log -----

  /** Whatever fails, a stage logs nothing but edges of the table and repairs of transitional states. */
  lemma StepLogsProperly(policy: DbOnly, w: World, j: Job, c: Luck)
    requires IsTransitional(j.volume.state)
    ensures var w' := Startup.RunStage(policy, w, j, c).0;
            w'.log == w.log || (|w'.log| > 0 && w'.log == w.log + [w'.log[|w'.log| - 1]]
                                && Audit.StartupEntryOk(w'.log[|w'.log| - 1]))
  {
  }

  lemma {:induction false} ReplayIsOwn(log: seq<Entry>, id: string, born: State)
    ensures Audit.Replay(log, id, born) == Audit.Replay(Own(log, id), id, born)
  {
    if log != [] {
      var front, e := log[..|log| - 1], log[|log| - 1];
      ReplayIsOwn(front, id, born);
      if e.volumeID == id {
        Audit.ReplayAppend(Own(front, id), e, id, born);
      } else {
        assert Own(log, id) == Own(front, id);
      }
    }
  }

  /** The volume's entries lead to its record. */
  predicate Follows(w: World, v: Volume, born: State) {
    v.name in w.db ==> Audit.Replay(w.log, v.id, born) == Some(w.db[v.name].state)
  }

  /**
   An align stage keeps the log in step with the record exactly when the entry is written
   if and only if the record is: the code writes the entry even after a failed update.
   */
  lemma AlignFollowsExactlyWhen(w: World, v: Volume, born: State, nodeID: string, f: Faults)
    requires Owns(w, v) && v.name in w.db && IsTransitional(w.db[v.name].state) && Follows(w, v, born)
    ensures Follows(Aligned(w, w.db[v.name], w.db[v.name].state, nodeID, f), v, born)
       <==> (f.saved <==> !f.update.Refused?)
  {
    Audit.ReplayAppend(w.log, Entry(v.id, Reconciled, w.db[v.name].state, Available), v.id, born);
  }

  /** A saved entry and a written record go together. */
  predicate Faithful(c: Luck) {
    !c.faults.update.Unacknowledged? && (c.faults.saved <==> c.faults.update.Stored?)
  }

  ghost predicate AlwaysFaithful(luck: nat -> Luck) {
    forall k: nat :: Faithful(luck(k))
  }

  /** Each stage keeps the volume's log in step with its record. */
  lemma StepFollows(policy: DbOnly, w: World, j: Job, born: State, c: Luck)
    requires Owns(w, j.volume) && IsTransitional(j.volume.state) && Follows(w, j.volume, born) && Faithful(c)
    requires j.stage.Align? && j.volume.name in w.db ==> w.db[j.volume.name].state == j.volume.state
    ensures Follows(Startup.RunStage(policy, w, j, c).0, j.volume, born)
  {
    hide Audit.Replay;
    var v := j.volume;
    if v.name in w.db {
      var found := w.db[v.name];
      Audit.ReplayAppend(w.log, Entry(v.id, Reconciled, found.state, Available), v.id, born);
      if CanTransition(found.state, EventError) {
        Audit.ReplayAppend(w.log, Entry(v.id, Applied(EventError), found.state,
                                        Transition(found.state, EventError).value), v.id, born);
      }
      if CanTransition(found.state, EventFail) {
        Audit.ReplayAppend(w.log, Entry(v.id, Applied(EventFail), found.state,
                                        Transition(found.state, EventFail).value), v.id, born);
      }
    }
  }

  /** Until its first write, a goroutine finds the world as it was. */
  predicate Untouched(s: Stage) {
    s.Query? || s.Align? || s.Erase?
  }

  lemma {:induction false} AloneFollows(policy: DbOnly, w: World, v: Volume, born: State, luck: nat -> Luck, t: nat)
    requires v.name in w.db && w.db[v.name] == v && IsTransitional(v.state) && Follows(w, v, born)
    requires AlwaysFaithful(luck)
    ensures var (w', j') := Alone(policy, w, Begin(v), luck, t);
            && Follows(w', v, born) && Owns(w', v) && j'.volume == v
            && (Untouched(j'.stage) ==> w' == w)
    decreases t
  {
    if t > 0 {
      AloneFollows(policy, w, v, born, luck, t - 1);
      var (w', j') := Alone(policy, w, Begin(v), luck, t - 1);
      hide Follows;
      StepFollows(policy, w', j', born, luck(t - 1));
      hide Owns, WritesOwn;
      StepWritesOwn(policy, w', j', luck(t - 1));
    }
  }

  /** The startup pass keeps the audit log in step with every listed record, at every moment of every schedule. */
  lemma PassKeepsAudit(
    policy: DbOnly, w: World, listed: seq<Volume>, oracle: Oracle, schedule: seq<nat>, i: nat, born: State)
    requires Listed(w, listed) && Within(schedule, |listed|)
    requires i < |listed| && IsTransitional(listed[i].state) && Follows(w, listed[i], born) && AlwaysFaithful(oracle(i))
    ensures Follows(PassResult(policy, w, listed, oracle, schedule).world, listed[i], born)
  {
    SchedulesAreIndependent(policy, w, listed, oracle, schedule);
    var s := PassResult(policy, w, listed, oracle, schedule);
    assert OneAsIfAlone(policy, w, listed[i], oracle(i), s.world, s.jobs[i], s.turns[i]);
    assert listed[i] in listed;
    AloneFollows(policy, w, listed[i], born, oracle(i), s.turns[i]);
    var alone := Alone(policy, w, Begin(listed[i]), oracle(i), s.turns[i]).0;
    ReplayIsOwn(s.world.log, listed[i].id, born);
    ReplayIsOwn(alone.log, listed[i].id, born);
    assert Load(s.world, listed[i].name, true) == Load(alone, listed[i].name, true);
  }

  /** Whoever was not listed keeps record, entries and events. */
  lemma {:induction false} BystandersAreSpared(
    policy: DbOnly, w: World, listed: seq<Volume>, oracle: Oracle, schedule: seq<nat>, v: Volume)
    requires Listed(w, listed) && Within(schedule, |listed|)
    requires forall u <- listed :: u.name != v.name && u.id != v.id
    ensures ViewOf(PassResult(policy, w, listed, oracle, schedule).world, v) == ViewOf(w, v)
    decreases |schedule|
  {
    if schedule != [] {
      var front, i := schedule[..|schedule| - 1], schedule[|schedule| - 1];
      BystandersAreSpared(policy, w, listed, oracle, front, v);
      SchedulesAreIndependent(policy, w, listed, oracle, front);
      var s := PassResult(policy, w, listed, oracle, front);
      OwnTurn(policy, w, listed[i], oracle(i), s.world, s.jobs[i], s.turns[i]);
      assert listed[i] in listed;
      WritesLeaveOthers(s.world, Startup.RunStage(policy, s.world, s.jobs[i], oracle(i)(s.turns[i])).0, listed[i], v);
    }
  }

  /** The entries a pass adds are startup entries of the listed volumes. */
  ghost predicate AddsProperly(log: seq<Entry>, log': seq<Entry>, listed: seq<Volume>) {
    && log <= log'
    && forall e <- log'[|log|..] :: Audit.StartupEntryOk(e) && exists v <- listed :: v.id == e.volumeID
  }

  lemma AddsOneMore(log: seq<Entry>, log': seq<Entry>, log'': seq<Entry>, listed: seq<Volume>, v: Volume)
    requires AddsProperly(log, log', listed) && v in listed
    requires log'' == log' || (|log''| > 0 && log'' == log' + [log''[|log''| - 1]]
                               && log''[|log''| - 1].volumeID == v.id && Audit.StartupEntryOk(log''[|log''| - 1]))
    ensures AddsProperly(log, log'', listed)
  {
    if log'' != log' {
      assert log''[|log|..] == log'[|log|..] + [log''[|log''| - 1]];
    }
  }

  lemma {:induction false} PassLogsProperly(
    policy: DbOnly, w: World, listed: seq<Volume>, oracle: Oracle, schedule: seq<nat>)
    requires Listed(w, listed) && (forall v <- listed :: IsTransitional(v.state)) && Within(schedule, |listed|)
    ensures AddsProperly(w.log, PassResult(policy, w, listed, oracle, schedule).world.log, listed)
    decreases |schedule|
  {
    if schedule != [] {
      var front, i := schedule[..|schedule| - 1], schedule[|schedule| - 1];
      PassLogsProperly(policy, w, listed, oracle, front);
      SchedulesAreIndependent(policy, w, listed, oracle, front);
      var s := PassResult(policy, w, listed, oracle, front);
      OwnTurn(policy, w, listed[i], oracle(i), s.world, s.jobs[i], s.turns[i]);
      assert listed[i] in listed;
      StepLogsProperly(policy, s.world, s.jobs[i], oracle(i)(s.turns[i]));
      AddsOneMore(w.log, s.world.log, Startup.RunStage(policy, s.world, s.jobs[i], oracle(i)(s.turns[i])).0.log, listed,
                  listed[i]);
    }
  }
}
