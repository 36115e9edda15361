/**
 Startup reconciliation: one goroutine for every volume left in a transitional state,
 in any schedule, and then the import of volumes only the backend knows.
 */
module Startup {
  import opened Storage
  import opened Fsm
  import opened Lifecycle

  /** What to do with a record whose volume the backend does not hold. */
  datatype DbOnly = MarkError | EraseRecord | Ignore

  /** Where the goroutine of one volume is. */
  datatype Stage = Query | Erase | ToBroken | ToError | Align(nodeID: string) | Over

  /** A goroutine, with the record as it was listed. */
  datatype Job = Job(volume: Volume, stage: Stage)

  /** What the environment decides at one stage. */
  datatype Luck = Luck(reachable: bool, faults: Faults)

  const GOOD := Luck(true, NO_FAULTS)

  function Begin(v: Volume): Job {
    Job(v, Query)
  }

  /** What the answer of the backend decides. */
  function Decide(policy: DbOnly, s: State, held: Option<Volume>): Stage {
    match held
    case None => (match policy case EraseRecord => Erase case Ignore => Over case MarkError => ToBroken)
    case Some(actual) => if s == Deleting || s == DeletingFailed then ToBroken else Align(actual.nodeID)
  }

  /** An event that is applied only if it is valid, and whose failure is ignored. */
  function ApplyIfValid(w: World, v: Volume, event: Event, f: Faults): World {
    if CanTransition(v.state, event) then ApplyEvent(w, v, event, f).world else w
  }

  /** The record is overwritten, and the repair is logged whether or not the write worked. */
  function Aligned(w: World, found: Volume, listed: State, nodeID: string, f: Faults): World {
    var w' := Update(w, found.(state := Available, nodeID := nodeID), f.update);
    if f.saved then w'.(log := w'.log + [Entry(found.id, Reconciled, listed, Available)]) else w'
  }

  function RunStage(policy: DbOnly, w: World, j: Job, c: Luck): (World, Job) {
    var over := j.(stage := Over);
    var name, f := j.volume.name, c.faults;
    match j.stage
    case Query => (w, if c.reachable then j.(stage := Decide(policy, j.volume.state, Held(w, name))) else over)
    case Erase => (if f.write.Refused? then w else w.(db := w.db - {name}), over)
    case ToBroken =>
      (match Load(w, name, f.load)
       case None => (w, over)
       case Some(v) =>
         if CanTransition(v.state, EventError) then (ApplyIfValid(w, v, EventError, f), j.(stage := ToError))
         else (ApplyIfValid(w, v, EventFail, f), over))
    case ToError =>
      (match Load(w, name, f.load)
       case None => (w, over)
       case Some(v) => (ApplyIfValid(w, v, EventFail, f), over))
    case Align(nodeID) =>
      (match Load(w, name, f.load)
       case None => (w, over)
       case Some(v) => (Aligned(w, v, j.volume.state, nodeID, f), over))
    case Over => (w, j)
  }

  /** At most three stages lead to the end. */
  function TurnsLeft(s: Stage): nat {
    match s
    case Query => 3
    case ToBroken => 2
    case Over => 0
    case _ => 1
  }

  lemma StepAdvances(policy: DbOnly, w: World, j: Job, c: Luck)
    ensures var j' := RunStage(policy, w, j, c).1;
            j'.volume == j.volume && (j.stage.Over? || TurnsLeft(j'.stage) < TurnsLeft(j.stage))
  {
  }

  // ----- What belongs to one volume -----

  function Own(log: seq<Entry>, id: string): seq<Entry> {
    if log == [] then []
    else Own(log[..|log| - 1], id) + if log[|log| - 1].volumeID == id then [log[|log| - 1]] else []
  }

  function OwnFeed(feed: seq<StateEvent>, name: string): seq<StateEvent> {
    if feed == [] then []
    else OwnFeed(feed[..|feed| - 1], name) + if feed[|feed| - 1].name == name then [feed[|feed| - 1]] else []
  }

  lemma OwnAppend(log: seq<Entry>, e: Entry, id: string)
    ensures Own(log + [e], id) == Own(log, id) + if e.volumeID == id then [e] else []
  {
    assert (log + [e])[..|log|] == log;
  }

  lemma OwnFeedAppend(feed: seq<StateEvent>, e: StateEvent, name: string)
    ensures OwnFeed(feed + [e], name) == OwnFeed(feed, name) + if e.name == name then [e] else []
  {
    assert (feed + [e])[..|feed|] == feed;
  }

  /** A volume's part of the world: its record, what the backend holds, its own entries and events. */
  datatype View = View(record: Option<Volume>, held: Option<Volume>, log: seq<Entry>, feed: seq<StateEvent>)

  function ViewOf(w: World, v: Volume): View {
    View(Load(w, v.name, true), Held(w, v.name), Own(w.log, v.id), OwnFeed(w.feed, v.name))
  }

  /** The record, while there is one, is still the listed volume's. */
  predicate Owns(w: World, v: Volume) {
    v.name in w.db ==> w.db[v.name].name == v.name && w.db[v.name].id == v.id
  }

  /** What a stage may add to log and feed: entries of its own volume, events under its own name. */
  ghost predicate WritesOwn(w: World, w': World, v: Volume) {
    && (w'.log == w.log
        || (|w'.log| > 0 && w'.log == w.log + [w'.log[|w'.log| - 1]] && w'.log[|w'.log| - 1].volumeID == v.id))
    && (w'.feed == w.feed
        || (|w'.feed| > 0 && w'.feed == w.feed + [w'.feed[|w'.feed| - 1]] && w'.feed[|w'.feed| - 1].name == v.name))
    && (forall n | n != v.name :: n in w.db <==> n in w'.db)
    && (forall n | n != v.name && n in w.db :: w'.db[n] == w.db[n])
    && w'.backend == w.backend
  }

  lemma ApplyWritesOwn(w: World, found: Volume, event: Event, f: Faults, v: Volume)
    requires Owns(w, v) && found.name == v.name && found.id == v.id
    ensures WritesOwn(w, ApplyIfValid(w, found, event, f), v) && Owns(ApplyIfValid(w, found, event, f), v)
  {
  }

  lemma AlignWritesOwn(w: World, found: Volume, listed: State, nodeID: string, f: Faults, v: Volume)
    requires Owns(w, v) && found.name == v.name && found.id == v.id
    ensures WritesOwn(w, Aligned(w, found, listed, nodeID, f), v) && Owns(Aligned(w, found, listed, nodeID, f), v)
  {
  }

  lemma StepWritesOwn(policy: DbOnly, w: World, j: Job, c: Luck)
    requires Owns(w, j.volume)
    ensures WritesOwn(w, RunStage(policy, w, j, c).0, j.volume) && Owns(RunStage(policy, w, j, c).0, j.volume)
  {
    var v, f := j.volume, c.faults;
    if v.name in w.db {
      match j.stage
      case ToBroken =>
        ApplyWritesOwn(w, w.db[v.name], EventError, f, v);
        ApplyWritesOwn(w, w.db[v.name], EventFail, f, v);
      case ToError => ApplyWritesOwn(w, w.db[v.name], EventFail, f, v);
      case Align(nodeID) => AlignWritesOwn(w, w.db[v.name], v.state, nodeID, f, v);
      case _ =>
    }
  }

  /** Writes of one volume's goroutine change nothing that belongs to another volume. */
  lemma WritesLeaveOthers(w: World, w': World, owner: Volume, v: Volume)
    requires WritesOwn(w, w', owner) && v.name != owner.name && v.id != owner.id
    ensures ViewOf(w', v) == ViewOf(w, v)
    ensures Owns(w, v) ==> Owns(w', v)
  {
    hide Own, OwnFeed;
    if w'.log != w.log {
      OwnAppend(w.log, w'.log[|w'.log| - 1], v.id);
    }
    if w'.feed != w.feed {
      OwnFeedAppend(w.feed, w'.feed[|w'.feed| - 1], v.name);
    }
  }

  lemma ApplySeesOwn(w1: World, w2: World, found: Volume, event: Event, f: Faults, v: Volume)
    requires Owns(w1, v) && Owns(w2, v) && ViewOf(w1, v) == ViewOf(w2, v) && found.name == v.name && found.id == v.id
    ensures ViewOf(ApplyIfValid(w1, found, event, f), v) == ViewOf(ApplyIfValid(w2, found, event, f), v)
  {
    hide Own, OwnFeed;
    if CanTransition(found.state, event) {
      var next := Transition(found.state, event).value;
      OwnAppend(w1.log, Entry(found.id, Applied(event), found.state, next), v.id);
      OwnAppend(w2.log, Entry(found.id, Applied(event), found.state, next), v.id);
      OwnFeedAppend(w1.feed, StateEvent(v.name, next, event), v.name);
      OwnFeedAppend(w2.feed, StateEvent(v.name, next, event), v.name);
    }
  }

  lemma AlignSeesOwn(w1: World, w2: World, found: Volume, listed: State, nodeID: string, f: Faults, v: Volume)
    requires ViewOf(w1, v) == ViewOf(w2, v) && found.name == v.name && found.id == v.id
    ensures ViewOf(Aligned(w1, found, listed, nodeID, f), v) == ViewOf(Aligned(w2, found, listed, nodeID, f), v)
  {
    hide Own, OwnFeed;
    OwnAppend(w1.log, Entry(found.id, Reconciled, listed, Available), v.id);
    OwnAppend(w2.log, Entry(found.id, Reconciled, listed, Available), v.id);
  }

  /** What a stage does to its own volume depends on nothing else. */
  lemma StepSeesOwn(policy: DbOnly, w1: World, w2: World, j: Job, c: Luck)
    requires Owns(w1, j.volume) && Owns(w2, j.volume) && ViewOf(w1, j.volume) == ViewOf(w2, j.volume)
    ensures RunStage(policy, w1, j, c).1 == RunStage(policy, w2, j, c).1
    ensures ViewOf(RunStage(policy, w1, j, c).0, j.volume) == ViewOf(RunStage(policy, w2, j, c).0, j.volume)
  {
    hide Own, OwnFeed, ApplyEvent, Update;
    var v, f := j.volume, c.faults;
    if v.name in w1.db {
      var found := w1.db[v.name];
      assert found == w2.db[v.name];
      ApplySeesOwn(w1, w2, found, EventError, f, v);
      ApplySeesOwn(w1, w2, found, EventFail, f, v);
      match j.stage
      case Align(nodeID) => AlignSeesOwn(w1, w2, found, v.state, nodeID, f, v);
      case _ =>
    }
  }

  // ----- Schedules -----

  /** The luck of each goroutine at each of its stages. */
  type Oracle = nat -> nat -> Luck

  /** The running goroutines, and how many stages each has had. */
  datatype Fleet = Fleet(world: World, jobs: seq<Job>, turns: seq<nat>)

  predicate WellFormed(s: Fleet) {
    |s.jobs| == |s.turns|
  }

  /** One goroutine has its next stage. */
  function GiveTurn(policy: DbOnly, s: Fleet, oracle: Oracle, i: nat): Fleet
    requires WellFormed(s) && i < |s.jobs|
  {
    var (w, j) := RunStage(policy, s.world, s.jobs[i], oracle(i)(s.turns[i]));
    Fleet(w, s.jobs[i := j], s.turns[i := s.turns[i] + 1])
  }

  predicate Within(schedule: seq<nat>, n: nat) {
    forall k | 0 <= k < |schedule| :: schedule[k] < n
  }

  function Scheduled(policy: DbOnly, s: Fleet, oracle: Oracle, schedule: seq<nat>): (s': Fleet)
    requires WellFormed(s) && Within(schedule, |s.jobs|)
    ensures WellFormed(s') && |s'.jobs| == |s.jobs|
  {
    if schedule == [] then s
    else GiveTurn(policy, Scheduled(policy, s, oracle, schedule[..|schedule| - 1]), oracle, schedule[|schedule| - 1])
  }

  /** One goroutine running with nobody else around. */
  function Alone(policy: DbOnly, w: World, j: Job, luck: nat -> Luck, turns: nat): (World, Job) {
    if turns == 0 then (w, j)
    else
      var (w', j') := Alone(policy, w, j, luck, turns - 1);
      RunStage(policy, w', j', luck(turns - 1))
  }

  function Launch(w: World, listed: seq<Volume>): Fleet {
    Fleet(w, seq(|listed|, i requires 0 <= i < |listed| => Begin(listed[i])), seq(|listed|, i => 0))
  }

  /** The listed volumes are distinct records of the database. */
  ghost predicate Listed(w: World, listed: seq<Volume>) {
    && (forall v <- listed :: v.name in w.db && w.db[v.name] == v)
    && (forall i, j | 0 <= i < |listed| && 0 <= j < |listed| && i != j ::
          listed[i].name != listed[j].name && listed[i].id != listed[j].id)
  }

  /** One goroutine is where it would be on its own, and so is its volume. */
  ghost predicate OneAsIfAlone(policy: DbOnly, w: World, v: Volume, luck: nat -> Luck, now: World, j: Job, turns: nat) {
    var (w', j') := Alone(policy, w, Begin(v), luck, turns);
    j == j' && j.volume == v && ViewOf(now, v) == ViewOf(w', v) && Owns(now, v) && Owns(w', v)
  }

  /** Names that were not listed. */
  ghost predicate Unlisted(listed: seq<Volume>, n: string) {
    forall v <- listed :: v.name != n
  }

  ghost predicate AsIfAlone(policy: DbOnly, w: World, listed: seq<Volume>, oracle: Oracle, s: Fleet) {
    && |s.jobs| == |s.turns| == |listed|
    && (forall i | 0 <= i < |listed| :: OneAsIfAlone(policy, w, listed[i], oracle(i), s.world, s.jobs[i], s.turns[i]))
    && (forall n | Unlisted(listed, n) :: (n in s.world.db <==> n in w.db) && (n in w.db ==> s.world.db[n] == w.db[n]))
    && s.world.backend == w.backend
  }

  lemma OwnTurn(policy: DbOnly, w: World, v: Volume, luck: nat -> Luck, now: World, j: Job, turns: nat)
    requires OneAsIfAlone(policy, w, v, luck, now, j, turns)
    ensures var (now', j') := RunStage(policy, now, j, luck(turns));
            OneAsIfAlone(policy, w, v, luck, now', j', turns + 1) && WritesOwn(now, now', v)
  {
    var (alone, j1) := Alone(policy, w, Begin(v), luck, turns);
    StepWritesOwn(policy, now, j, luck(turns));
    StepWritesOwn(policy, alone, j, luck(turns));
    StepSeesOwn(policy, now, alone, j, luck(turns));
    StepAdvances(policy, now, j, luck(turns));
  }

  lemma TurnKeepsAlone(policy: DbOnly, w: World, listed: seq<Volume>, oracle: Oracle, s: Fleet, i: nat)
    requires Listed(w, listed) && AsIfAlone(policy, w, listed, oracle, s) && i < |listed|
    ensures AsIfAlone(policy, w, listed, oracle, GiveTurn(policy, s, oracle, i))
  {
    var s' := GiveTurn(policy, s, oracle, i);
    OwnTurn(policy, w, listed[i], oracle(i), s.world, s.jobs[i], s.turns[i]);
    forall m | 0 <= m < |listed|
      ensures OneAsIfAlone(policy, w, listed[m], oracle(m), s'.world, s'.jobs[m], s'.turns[m])
    {
      if m != i {
        WritesLeaveOthers(s.world, s'.world, listed[i], listed[m]);
      }
    }
    assert !Unlisted(listed, listed[i].name);
  }

  /**
   No schedule matters.  However the stages of the goroutines interleave, and whatever goes
   wrong at each, every goroutine is where it would be on its own after as many stages, and
   its volume's record, entries and events are what they would be; all other records are untouched.
   */
  lemma {:induction false} SchedulesAreIndependent(
    policy: DbOnly, w: World, listed: seq<Volume>, oracle: Oracle, schedule: seq<nat>)
    requires Listed(w, listed) && Within(schedule, |listed|)
    ensures AsIfAlone(policy, w, listed, oracle, Scheduled(policy, Launch(w, listed), oracle, schedule))
    decreases |schedule|
  {
    if schedule != [] {
      SchedulesAreIndependent(policy, w, listed, oracle, schedule[..|schedule| - 1]);
      TurnKeepsAlone(policy, w, listed, oracle,
                     Scheduled(policy, Launch(w, listed), oracle, schedule[..|schedule| - 1]),
                     schedule[|schedule| - 1]);
    }
  }
}
