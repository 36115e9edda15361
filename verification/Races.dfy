/**
 Below the atomic steps: what holds, and what does not, when concurrent API calls
 interleave between their individual database operations.
 */
module Races {
  import opened Storage
  import opened Fsm
  import opened Lifecycle

  // ----- Concurrent creates -----

  /** Where one call of CreateVolume is: about to look, to save, to apply; accepted, or refused. */
  datatype Progress = Looking | Saving | Applying | Accepted | Rejected

  /** A call, and whether its record was inserted, whatever it was told. */
  datatype Creator = Creator(volume: Volume, progress: Progress, inserted: bool)

  datatype Scene = Scene(db: map<string, Volume>, creators: seq<Creator>)

  /**
   A new call arrives; a call takes its next database operation; or anybody else updates
   an existing record in whatever way.
   */
  datatype Move = Arrive(volume: Volume) | Proceed(creator: nat, works: bool, fate: Fate) | Interfere(volume: Volume)

  predicate Allowed(s: Scene, m: Move) {
    match m
    case Arrive(v) => true
    case Proceed(i, _, _) => i < |s.creators|
    case Interfere(v) => v.name in s.db
  }

  function Made(s: Scene, m: Move): Scene
    requires Allowed(s, m)
  {
    match m
    case Arrive(v) => s.(creators := s.creators + [Creator(v, Looking, false)])
    case Interfere(v) => s.(db := s.db[v.name := v])
    case Proceed(i, works, fate) =>
      var c := s.creators[i];
      var name := c.volume.name;
      match c.progress
      case Looking =>
        s.(creators := s.creators[i := c.(progress := if works && name !in s.db then Saving else Rejected)])
      case Saving =>
        var done := name !in s.db && !fate.Refused?;
        Scene(if done then s.db[name := c.volume] else s.db,
              s.creators[i := c.(progress := if done && fate.Stored? then Applying else Rejected, inserted := done)])
      case Applying =>
        Scene(if fate.Refused? then s.db else s.db[name := c.volume.(state := Creating)],
              s.creators[i := c.(progress := if fate.Stored? then Accepted else Rejected)])
      case _ => s
  }

  /** Whoever has inserted a name is alone in that, and the name is taken; only an inserter is ever accepted. */
  ghost predicate OneInserter(s: Scene) {
    && (forall i | 0 <= i < |s.creators| && s.creators[i].inserted :: s.creators[i].volume.name in s.db)
    && (forall i, j | 0 <= i < j < |s.creators| && s.creators[i].inserted && s.creators[j].inserted ::
          s.creators[i].volume.name != s.creators[j].volume.name)
    && (forall i | 0 <= i < |s.creators| :: Consistent(s.creators[i]))
  }

  predicate Consistent(c: Creator) {
    && (c.progress.Applying? || c.progress.Accepted? ==> c.inserted)
    && (c.progress.Looking? || c.progress.Saving? ==> !c.inserted)
  }

  ghost predicate IsPlay(s: Scene, moves: seq<Move>)
    decreases |moves|
  {
    moves == [] || (Allowed(s, moves[0]) && IsPlay(Made(s, moves[0]), moves[1..]))
  }

  ghost function Played(s: Scene, moves: seq<Move>): Scene
    requires IsPlay(s, moves)
    decreases |moves|
  {
    if moves == [] then s else Played(Made(s, moves[0]), moves[1..])
  }

  /**
   However any number of concurrent creates interleave with each other and with other
   writers, at most one of them ever inserts a name and goes on to start a worker.
   */
  lemma {:induction false} AtMostOneInserts(s: Scene, moves: seq<Move>)
    requires OneInserter(s) && IsPlay(s, moves)
    ensures OneInserter(Played(s, moves))
    decreases |moves|
  {
    if moves != [] {
      AtMostOneInserts(Made(s, moves[0]), moves[1..]);
    }
  }

  /**
   SaveVolume is where the race is decided: a name that is taken stays taken, and no call
   that has not yet inserted it ever will, or will start a worker for it.
   */
  lemma {:induction false} TakenNamesStayTaken(s: Scene, moves: seq<Move>, name: string)
    requires name in s.db && IsPlay(s, moves)
    ensures name in Played(s, moves).db
    ensures |s.creators| <= |Played(s, moves).creators|
    ensures forall i | 0 <= i < |s.creators| :: Played(s, moves).creators[i].volume == s.creators[i].volume
    ensures forall i | 0 <= i < |Played(s, moves).creators| && Played(s, moves).creators[i].inserted ::
              Played(s, moves).creators[i].volume.name == name ==> i < |s.creators| && s.creators[i].inserted
    decreases |moves|
  {
    if moves != [] {
      TakenNamesStayTaken(Made(s, moves[0]), moves[1..], name);
    }
  }

  predicate InsertedBy(s: Scene, i: int, name: string) {
    0 <= i < |s.creators| && s.creators[i].inserted && s.creators[i].volume.name == name
  }

  /** The taken names are those that were taken before, and those that one of the calls has inserted. */
  ghost predicate Accounted(s: Scene, before: set<string>) {
    && (forall name :: name in s.db <==> name in before || exists i :: InsertedBy(s, i, name))
    && (forall i, name | InsertedBy(s, i, name) :: name !in before)
    && (forall i | 0 <= i < |s.creators| :: Consistent(s.creators[i]))
  }

  lemma MadeStaysAccounted(s: Scene, m: Move, before: set<string>)
    requires Accounted(s, before) && Allowed(s, m)
    ensures Accounted(Made(s, m), before)
  {
    var s' := Made(s, m);
    forall i, n | InsertedBy(s, i, n) ensures InsertedBy(s', i, n) {
      assert Consistent(s.creators[i]);
    }
    forall i, n | InsertedBy(s', i, n) ensures n in s'.db && n !in before {
      if InsertedBy(s, i, n) {
        assert n in s.db;
      } else {
        assert m.Proceed? && i == m.creator && s.creators[i].progress.Saving? && n !in s.db;
      }
    }
    forall n | n in s'.db && n !in before ensures exists i :: InsertedBy(s', i, n) {
      if n in s.db {
        var i :| InsertedBy(s, i, n);
        assert InsertedBy(s', i, n);
      } else {
        assert InsertedBy(s', m.creator, n);
      }
    }
  }

  /** However creates interleave, a name is taken exactly when it was so before or one of them has inserted it. */
  lemma {:induction false} TakenExactlyWhenInserted(s: Scene, moves: seq<Move>, before: set<string>)
    requires Accounted(s, before) && IsPlay(s, moves)
    ensures Accounted(Played(s, moves), before)
    decreases |moves|
  {
    if moves != [] {
      MadeStaysAccounted(s, moves[0], before);
      TakenExactlyWhenInserted(Made(s, moves[0]), moves[1..], before);
    }
  }

  /** A create of a free name, with nobody in between and a working database, is accepted. */
  lemma LoneCreateIsAccepted(s: Scene, v: Volume)
    requires v.name !in s.db
    ensures var i := |s.creators|;
            var step := Proceed(i, true, Stored);
            var s1 := Made(s, Arrive(v));
            var s4 := Made(Made(Made(s1, step), step), step);
            && s4.db == s.db[v.name := v.(state := Creating)]
            && s4.creators == s.creators + [Creator(v, Accepted, true)]
  {
    assert s.db[v.name := v][v.name := v.(state := Creating)] == s.db[v.name := v.(state := Creating)];
  }

  /** A create that finds its name taken, when it looks or when it saves, writes nothing and is refused. */
  lemma TakenCreateIsRefused(s: Scene, i: nat, works: bool, fate: Fate)
    requires i < |s.creators| && s.creators[i].volume.name in s.db
    requires Consistent(s.creators[i]) && (s.creators[i].progress.Looking? || s.creators[i].progress.Saving?)
    ensures Made(s, Proceed(i, works, fate)).db == s.db
    ensures Made(s, Proceed(i, works, fate)).creators == s.creators[i := Creator(s.creators[i].volume, Rejected, false)]
  {
  }

  // ----- Two concurrent requests -----

  /**
   One call of AttachVolume, DetachVolume or DeleteVolume: it works on the copy it loaded.  An
   answered call remembers whether it was accepted, whether its update took effect, whether the
   database did all it asked for, and when it loaded and applied.
   */
  datatype Rival =
    | Unbegun
    | Holding(copy: State, loaded: nat)
    | Written(copy: State, loaded: nat)
    | Answered(accepted: bool, moved: bool, sound: bool, loaded: nat, applied: nat)

  /** What the two calls ask for, and the state in which they find the volume. */
  datatype Dispute = Dispute(origin: State, one: Kind, two: Kind)

  /** Both can be requested in that state; a create has no record to load. */
  predicate Disputed(p: Dispute) {
    && CanTransition(p.origin, Request(p.one)) && CanTransition(p.origin, Request(p.two))
    && !p.one.CreateOp? && !p.two.CreateOp?
  }

  /** The record's state, a clock, and the two calls. */
  datatype Duel = Duel(state: State, clock: nat, one: Rival, two: Rival)

  /** The guard, on the loaded copy, and the update. */
  function Apply(kind: Kind, copy: State, loaded: nat, state: State, clock: nat, fate: Fate): (State, Rival) {
    match Transition(copy, Request(kind))
    case Some(next) =>
      (if fate.Refused? then state else next, Answered(fate.Stored?, !fate.Refused?, fate.Stored?, loaded, clock))
    case None => (state, Answered(false, false, true, loaded, clock))
  }

  /**
   The next database operation of a call: load; only for an attach, write the node with the whole
   loaded record; guard and update.
   */
  function Operate(kind: Kind, a: Rival, state: State, clock: nat, works: bool, fate: Fate): (State, Rival) {
    match a
    case Unbegun => (state, if works then Holding(state, clock) else Answered(false, false, false, clock, clock))
    case Holding(copy, loaded) =>
      if kind.AttachOp? then
        (if fate.Refused? then state else copy,
         if fate.Stored? then Written(copy, loaded) else Answered(false, false, false, loaded, clock))
      else Apply(kind, copy, loaded, state, clock, fate)
    case Written(copy, loaded) => Apply(kind, copy, loaded, state, clock, fate)
    case Answered(_, _, _, _, _) => (state, a)
  }

  /** A call has its next operation, or a worker that an accepted call started applies an event. */
  datatype Blow = CallOperates(first: bool, works: bool, fate: Fate) | WorkerApplies(event: Event)

  predicate WorkerEvent(kind: Kind, event: Event) {
    event == Success(kind) || event == EventError || event == EventRetry || event == EventFail
  }

  /** The worker of an accepted call can apply the event. */
  predicate HasWorker(kind: Kind, a: Rival, event: Event) {
    a.Answered? && a.accepted && WorkerEvent(kind, event)
  }

  function Struck(p: Dispute, d: Duel, b: Blow): Duel {
    match b
    case CallOperates(true, works, fate) =>
      var (state, one) := Operate(p.one, d.one, d.state, d.clock, works, fate);
      Duel(state, d.clock + 1, one, d.two)
    case CallOperates(false, works, fate) =>
      var (state, two) := Operate(p.two, d.two, d.state, d.clock, works, fate);
      Duel(state, d.clock + 1, d.one, two)
    case WorkerApplies(event) =>
      var next := Transition(d.state, event);
      if HasWorker(p.one, d.one, event) || HasWorker(p.two, d.two, event) then
        d.(state := if next.Some? then next.value else d.state, clock := d.clock + 1)
      else d.(clock := d.clock + 1)
  }

  /** The volume is in the state both ask from at first; then calls and workers interleave in any way. */
  function Interleaved(p: Dispute, blows: seq<Blow>): Duel {
    if blows == [] then Duel(p.origin, 0, Unbegun, Unbegun)
    else Struck(p, Interleaved(p, blows[..|blows| - 1]), blows[|blows| - 1])
  }

  predicate Moved(a: Rival) {
    a.Answered? && a.moved
  }

  /** The other call's update had already taken effect when this one loaded. */
  predicate TooLate(a: Rival, other: Rival)
    requires !a.Unbegun?
  {
    Moved(other) && other.applied < a.loaded
  }

  predicate Knows(origin: State, a: Rival, other: Rival, clock: nat) {
    match a
    case Unbegun => true
    case Answered(accepted, moved, sound, loaded, applied) =>
      && loaded <= applied < clock
      && accepted == (sound && !TooLate(a, other))
      && (moved ==> loaded < applied && !TooLate(a, other)) && (accepted ==> moved)
    case _ => (a.copy == origin <==> !TooLate(a, other)) && a.loaded < clock
  }

  /** Before a call begins, the record is as at first unless the other one has moved it. */
  predicate BeforeLoad(origin: State, a: Rival, other: Rival, state: State) {
    a.Unbegun? ==> (state == origin <==> !Moved(other))
  }

  ghost predicate DuelOk(origin: State, d: Duel) {
    && Knows(origin, d.one, d.two, d.clock) && Knows(origin, d.two, d.one, d.clock)
    && BeforeLoad(origin, d.one, d.two, d.state) && BeforeLoad(origin, d.two, d.one, d.state)
  }

  lemma OnlyFromOrigin(origin: State, kind: Kind, s: State)
    requires CanTransition(origin, Request(kind))
    ensures Transition(s, Request(kind)) == if s == origin then Some(Busy(kind)) else None
    ensures Busy(kind) != origin
  {
  }

  lemma OperateStaysOk(origin: State, kind: Kind, d: Duel, works: bool, fate: Fate)
    requires DuelOk(origin, d) && CanTransition(origin, Request(kind))
    ensures var (state, one) := Operate(kind, d.one, d.state, d.clock, works, fate);
            DuelOk(origin, Duel(state, d.clock + 1, one, d.two))
  {
    hide Transition, Request, Busy;
    if d.one.Written? || d.one.Holding? {
      OnlyFromOrigin(origin, kind, d.one.copy);
    }
  }

  /** No worker of the two leads back to where both began. */
  lemma NeverBack(p: Dispute, s: State, event: Event)
    requires Disputed(p) && (WorkerEvent(p.one, event) || WorkerEvent(p.two, event))
    ensures Transition(s, event) != Some(p.origin)
  {
  }

  lemma EventStaysOk(p: Dispute, d: Duel, event: Event)
    requires Disputed(p) && DuelOk(p.origin, d)
    ensures DuelOk(p.origin, Struck(p, d, WorkerApplies(event)))
  {
    hide Transition, WorkerEvent, Disputed;
    if WorkerEvent(p.one, event) || WorkerEvent(p.two, event) {
      NeverBack(p, d.state, event);
    }
  }

  /** The two calls are alike. */
  lemma StruckStaysOk(p: Dispute, d: Duel, b: Blow)
    requires Disputed(p) && DuelOk(p.origin, d)
    ensures DuelOk(p.origin, Struck(p, d, b))
  {
    hide Transition, Operate, Knows, BeforeLoad;
    match b
    case CallOperates(first, works, fate) =>
      if first {
        OperateStaysOk(p.origin, p.one, d, works, fate);
      } else {
        OperateStaysOk(p.origin, p.two, Duel(d.state, d.clock, d.two, d.one), works, fate);
      }
    case WorkerApplies(event) => EventStaysOk(p, d, event);
  }

  lemma {:induction false} DuelInvariant(p: Dispute, blows: seq<Blow>)
    requires Disputed(p)
    ensures DuelOk(p.origin, Interleaved(p, blows))
  {
    if blows != [] {
      DuelInvariant(p, blows[..|blows| - 1]);
      StruckStaysOk(p, Interleaved(p, blows[..|blows| - 1]), blows[|blows| - 1]);
    }
  }

  /**
   Two requests that a volume's state admits, such as two attaches, or an attach and a delete, are
   both accepted, and so both start a worker, exactly when the database does all that both ask for,
   and each loads the record before the other one's guarded update, whatever the worker of the
   first one does in between.
   */
  lemma BothAcceptedExactlyWhenOverlapping(p: Dispute, blows: seq<Blow>)
    requires Disputed(p) && Interleaved(p, blows).one.Answered? && Interleaved(p, blows).two.Answered?
    ensures var one, two := Interleaved(p, blows).one, Interleaved(p, blows).two;
            one.accepted && two.accepted <==>
              one.sound && two.sound && one.loaded < two.applied && two.loaded < one.applied
  {
    DuelInvariant(p, blows);
    DistinctMoments(p, blows);
  }

  /** No two operations happen at the same moment. */
  lemma {:induction false} DistinctMoments(p: Dispute, blows: seq<Blow>)
    ensures var d := Interleaved(p, blows);
            && (!d.one.Unbegun? && d.two.Answered? ==> d.one.loaded != d.two.applied)
            && (!d.two.Unbegun? && d.one.Answered? ==> d.two.loaded != d.one.applied)
            && (!d.one.Unbegun? ==> d.one.loaded < d.clock) && (!d.two.Unbegun? ==> d.two.loaded < d.clock)
            && (d.one.Answered? ==> d.one.applied < d.clock) && (d.two.Answered? ==> d.two.applied < d.clock)
  {
    hide Transition, Request;
    if blows != [] {
      DistinctMoments(p, blows[..|blows| - 1]);
    }
  }

  const ONE := CallOperates(true, true, Stored)
  const TWO := CallOperates(false, true, Stored)
  const ATTACHED := WorkerApplies(EventAttached)

  lemma InterleavedExtends(p: Dispute, blows: seq<Blow>, b: Blow)
    ensures Interleaved(p, blows + [b]) == Struck(p, Interleaved(p, blows), b)
  {
    assert (blows + [b])[..|blows|] == blows;
  }

  /** The first half: both load; the first, an attach, is accepted; and its worker attaches the volume. */
  lemma FirstIsAttached(two: Kind)
    ensures Interleaved(Dispute(Available, AttachOp, two), [ONE, TWO, ONE, ONE, ATTACHED])
         == Duel(Attached, 5, Answered(true, true, true, 0, 3), Holding(Available, 1))
  {
    var p := Dispute(Available, AttachOp, two);
    NothingStruck(p);
    hide Interleaved;
    InterleavedExtends(p, [], ONE);
    InterleavedExtends(p, [ONE], TWO);
    InterleavedExtends(p, [ONE, TWO], ONE);
    InterleavedExtends(p, [ONE, TWO, ONE], ONE);
    InterleavedExtends(p, [ONE, TWO, ONE, ONE], ATTACHED);
    assert [] + [ONE] == [ONE];
    assert [ONE] + [TWO] == [ONE, TWO];
    assert [ONE, TWO] + [ONE] == [ONE, TWO, ONE];
    assert [ONE, TWO, ONE] + [ONE] == [ONE, TWO, ONE, ONE];
    assert [ONE, TWO, ONE, ONE] + [ATTACHED] == [ONE, TWO, ONE, ONE, ATTACHED];
  }

  lemma NothingStruck(p: Dispute)
    ensures Interleaved(p, []) == Duel(p.origin, 0, Unbegun, Unbegun)
  {
  }

  /**
   The second attach writes back the record it loaded: the record is available again, although the
   first one was accepted and the volume is attached.
   */
  lemma WriteBackUndoesAttach()
    ensures var d := Interleaved(Dispute(Available, AttachOp, AttachOp), [ONE, TWO, ONE, ONE, ATTACHED, TWO]);
            && d.one == Answered(true, true, true, 0, 3) && d.two == Written(Available, 1)
            && d.state == Available
  {
    var p, blows := Dispute(Available, AttachOp, AttachOp), [ONE, TWO, ONE, ONE, ATTACHED];
    FirstIsAttached(AttachOp);
    hide Interleaved;
    InterleavedExtends(p, blows, TWO);
    assert blows + [TWO] == [ONE, TWO, ONE, ONE, ATTACHED, TWO];
  }

  /** Then a second attach writes back the record it loaded, and is accepted too. */
  lemma TwoWorkersForOneVolume()
    ensures var d := Interleaved(Dispute(Available, AttachOp, AttachOp), [ONE, TWO, ONE, ONE, ATTACHED, TWO, TWO]);
            && d.one == Answered(true, true, true, 0, 3) && d.two == Answered(true, true, true, 1, 6)
            && d.state == Attaching
  {
    var p, blows := Dispute(Available, AttachOp, AttachOp), [ONE, TWO, ONE, ONE, ATTACHED];
    FirstIsAttached(AttachOp);
    hide Interleaved;
    InterleavedExtends(p, blows, TWO);
    InterleavedExtends(p, blows + [TWO], TWO);
    assert blows + [TWO] + [TWO] == [ONE, TWO, ONE, ONE, ATTACHED, TWO, TWO];
  }

  /** Or a delete is accepted, for a volume that is attached. */
  lemma DeletedWhileAttached()
    ensures var d := Interleaved(Dispute(Available, AttachOp, DeleteOp), [ONE, TWO, ONE, ONE, ATTACHED, TWO]);
            && d.one == Answered(true, true, true, 0, 3) && d.two == Answered(true, true, true, 1, 5)
            && d.state == Deleting
  {
    var p, blows := Dispute(Available, AttachOp, DeleteOp), [ONE, TWO, ONE, ONE, ATTACHED];
    FirstIsAttached(DeleteOp);
    hide Interleaved;
    InterleavedExtends(p, blows, TWO);
    assert blows + [TWO] == [ONE, TWO, ONE, ONE, ATTACHED, TWO];
  }
}
