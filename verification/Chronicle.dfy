/**
 The audit log as a story: a volume's entries are whole operations, repairs, and operations that
 a crash cut short and a startup pass brought to an end, one after the other, and at most one
 operation that is under way or was left behind.
 */
module Chronicle {
  import opened Storage
  import opened Fsm
  import opened Lifecycle
  import opened Engine
  import opened Filing
  import opened Agreement
  import opened Audit
  import opened Startup
  import opened Retry
  import Exact

  /** How far an operation has come: the errors answered by a retry, and whether one more is open. */
  datatype Begun = Begun(kind: Kind, retried: nat, broken: bool)

  /**
   An operation with the results of its backend calls; a reconcile; or an operation that a
   startup pass found at this point, and made available or an error.
   */
  datatype Chapter =
    | Operation(kind: Kind, results: seq<bool>)
    | Reconciliation(found: State)
    | Interrupted(progress: Begun, recovered: bool)

  /** The state in which an operation can be requested. */
  function Origin(kind: Kind): State {
    match kind case CreateOp => Pending case AttachOp => Available case DetachOp => Attached case DeleteOp => Available
  }

  function StateOf(p: Begun): State {
    if p.broken then Broken(p.kind) else Busy(p.kind)
  }

  function RequestEntry(id: string, kind: Kind): Entry {
    Entry(id, Applied(Request(kind)), Origin(kind), Busy(kind))
  }

  function FailEntry(id: string, kind: Kind): Entry {
    Entry(id, Applied(EventFail), Broken(kind), Error)
  }

  /** What an operation has logged so far. */
  function Opening(id: string, p: Begun): seq<Entry> {
    [RequestEntry(id, p.kind)] + Failures(id, p.kind, p.retried) + if p.broken then [ErrorEntry(id, p.kind)] else []
  }

  /** Only after a crash is there an operation cut short; it fails in a failed state only. */
  predicate ChapterOk(max: nat, crashed: bool, chapter: Chapter) {
    match chapter
    case Operation(_, results) => Conclusive(max, results)
    case Reconciliation(found) => Repairable(found)
    case Interrupted(p, recovered) => crashed && p.retried < max && (recovered || p.broken)
  }

  function Entries(id: string, chapter: Chapter): seq<Entry> {
    match chapter
    case Operation(kind, results) => [RequestEntry(id, kind)] + if results == [] then [] else Story(id, kind, results)
    case Reconciliation(found) => [Entry(id, Reconciled, Error, found)]
    case Interrupted(p, recovered) =>
      Opening(id, p) + [if recovered then Entry(id, Reconciled, StateOf(p), Available) else FailEntry(id, p.kind)]
  }

  function Told(id: string, chapters: seq<Chapter>): seq<Entry> {
    if chapters == [] then [] else Told(id, chapters[..|chapters| - 1]) + Entries(id, chapters[|chapters| - 1])
  }

  lemma TellsOneMore(id: string, chapters: seq<Chapter>, chapter: Chapter)
    ensures Told(id, chapters + [chapter]) == Told(id, chapters) + Entries(id, chapter)
  {
    assert (chapters + [chapter])[..|chapters|] == chapters;
  }

  /**
   The entries of a volume in this state: chapters, and, exactly in a transitional state, an opening
   that led there.
   */
  ghost predicate Recounts(
    max: nat, crashed: bool, own: seq<Entry>, id: string, s: State, chapters: seq<Chapter>, open: Option<Begun>)
  {
    && (forall ch <- chapters :: ChapterOk(max, crashed, ch))
    && (open.Some? <==> IsTransitional(s))
    && (open.Some? ==> StateOf(open.value) == s && open.value.retried < max)
    && own == Told(id, chapters) + if open.Some? then Opening(id, open.value) else []
  }

  // ----- One more entry -----

  /** Where an entry takes an operation under way; None if it ends there. */
  function Ahead(p: Begun, e: Entry): Option<Begun> {
    if e.cause == Applied(EventError) then Some(p.(broken := true))
    else if e.cause == Applied(EventRetry) then Some(Begun(p.kind, p.retried + 1, false))
    else None
  }

  /** The chapter that an entry completes. */
  function Completed(max: nat, p: Begun, e: Entry): Chapter {
    if e.cause.Reconciled? then Interrupted(p, true)
    else if e.cause == Applied(EventFail) && p.retried + 1 < max then Interrupted(p, false)
    else Operation(p.kind, Falses(p.retried) + [e.cause != Applied(EventFail)])
  }

  /** An entry that an operation under way can get: an edge of the table, or a startup repair. */
  predicate Continues(max: nat, crashed: bool, p: Begun, e: Entry) {
    && e.fromState == StateOf(p)
    && match e.cause
       case Applied(event) =>
         && Transition(e.fromState, event) == Some(e.toState)
         && (event.EventRetry? ==> p.retried + 1 < max)
         && (event.EventFail? ==> crashed || p.retried + 1 == max)
       case Reconciled => crashed && e.toState == Available
  }

  lemma OnlyEdges(p: Begun, event: Event)
    requires CanTransition(StateOf(p), event)
    ensures if p.broken then event.EventRetry? || event.EventFail? else event.EventError? || event == Success(p.kind)
    ensures !p.broken && event == Success(p.kind) ==> !event.EventError? && !event.EventRetry? && !event.EventFail?
  {
  }

  /** An operation with all its failures but the last retried. */
  lemma WholeOperation(max: nat, crashed: bool, id: string, kind: Kind, retried: nat, succeeded: bool)
    requires if succeeded then retried < max else retried + 1 == max
    ensures var chapter := Operation(kind, Falses(retried) + [succeeded]);
            && ChapterOk(max, crashed, chapter)
            && Entries(id, chapter)
               == [RequestEntry(id, kind)] + (Failures(id, kind, retried) + Closing(id, kind, succeeded))
  {
    var results := Falses(retried) + [succeeded];
    assert results[..|results| - 1] == Falses(retried);
  }

  lemma CompletedIsOk(max: nat, crashed: bool, id: string, p: Begun, e: Entry)
    requires Continues(max, crashed, p, e) && p.retried < max && Ahead(p, e).None? && e.volumeID == id
    ensures ChapterOk(max, crashed, Completed(max, p, e)) && Opening(id, p) + [e] == Entries(id, Completed(max, p, e))
    ensures !IsTransitional(e.toState)
  {
    hide Transition, Conclusive, Story, Falses, Failures;
    Exact.Edges(p.kind);
    if e.cause.Applied? {
      OnlyEdges(p, e.cause.event);
      if !Completed(max, p, e).Interrupted? {
        WholeOperation(max, crashed, id, p.kind, p.retried, !e.cause.event.EventFail?);
      }
    }
  }

  lemma AheadIsOpen(max: nat, crashed: bool, id: string, p: Begun, e: Entry)
    requires Continues(max, crashed, p, e) && p.retried < max && Ahead(p, e).Some? && e.volumeID == id
    ensures var p' := Ahead(p, e).value;
            && StateOf(p') == e.toState && p'.retried < max && IsTransitional(e.toState)
            && Opening(id, p) + [e] == Opening(id, p')
  {
    hide Transition;
    Exact.Edges(p.kind);
    OnlyEdges(p, e.cause.event);
  }

  lemma EntryContinues(
    max: nat, crashed: bool, own: seq<Entry>, id: string, chapters: seq<Chapter>, p: Begun, e: Entry)
    requires Recounts(max, crashed, own, id, StateOf(p), chapters, Some(p))
    requires Continues(max, crashed, p, e) && e.volumeID == id
    ensures Recounts(max, crashed, own + [e], id, e.toState,
                     if Ahead(p, e).Some? then chapters else chapters + [Completed(max, p, e)], Ahead(p, e))
  {
    hide Told, Opening, Entries, ChapterOk, Completed, Ahead, Continues;
    if Ahead(p, e).Some? {
      AheadIsOpen(max, crashed, id, p, e);
    } else {
      CompletedIsOk(max, crashed, id, p, e);
      TellsOneMore(id, chapters, Completed(max, p, e));
    }
    assert Told(id, chapters) + Opening(id, p) + [e] == Told(id, chapters) + (Opening(id, p) + [e]);
  }

  /** A request opens an operation. */
  lemma RequestOpens(max: nat, crashed: bool, own: seq<Entry>, id: string, s: State, chapters: seq<Chapter>, kind: Kind)
    requires max >= 1 && Recounts(max, crashed, own, id, s, chapters, None)
    ensures Recounts(max, crashed, own + [RequestEntry(id, kind)], id, Busy(kind), chapters,
                     Some(Begun(kind, 0, false)))
  {
  }

  lemma RepairTells(
    max: nat, crashed: bool, own: seq<Entry>, id: string, s: State, chapters: seq<Chapter>, found: State)
    requires Recounts(max, crashed, own, id, s, chapters, None) && Repairable(found)
    ensures Recounts(max, crashed, own + [Entry(id, Reconciled, Error, found)], id, found,
                     chapters + [Reconciliation(found)], None)
  {
    TellsOneMore(id, chapters, Reconciliation(found));
  }

  lemma {:induction false} OwnNothing(log: seq<Entry>, id: string)
    requires forall e <- log :: e.volumeID != id
    ensures Own(log, id) == []
  {
    if log != [] {
      OwnNothing(log[..|log| - 1], id);
    }
  }

  // ----- Workers -----

  /**
   A worker at this point of its operation; it may have skipped a retry event that it could not load
   the record for.
   */
  predicate InStep(max: nat, p: Begun, k: Worker) {
    var late := k.pc.Exhausted? || k.pc.Waiting? || k.pc.Retrying?;
    && p.kind == k.task.kind && AttemptFits(max, k) && (late ==> p.broken)
    && p.retried + (if p.broken && !late then 2 else 1) == k.attempt
  }

  /** A stage of a worker leaves log and state alone, or logs one entry that continues the operation. */
  predicate Proceeds(max: nat, w: World, p: Begun, w': World, k': Worker) {
    var n := k'.task.name;
    && n in w.db && n in w'.db && w'.db[n].id == w.db[n].id
    && if w'.log == w.log then w'.db[n].state == w.db[n].state && (k'.pc.Done? || InStep(max, p, k'))
       else
         && |w'.log| == |w.log| + 1 && w'.log[..|w.log|] == w.log
         && var e := w'.log[|w.log|];
            && e.volumeID == w.db[n].id && e.toState == w'.db[n].state && Continues(max, false, p, e)
            && (k'.pc.Done? || (Ahead(p, e).Some? && InStep(max, Ahead(p, e).value, k')))
  }

  /** The worker is at work, and where the log says. */
  predicate Underway(max: nat, w: World, k: Worker, p: Begun) {
    && k.task.name in w.db && w.db[k.task.name].name == k.task.name && w.db[k.task.name].state == StateOf(p)
    && InStep(max, p, k) && !k.pc.Done?
  }

  lemma SuccessProceeds(max: nat, w: World, k: Worker, choice: Choice, p: Begun)
    requires Underway(max, w, k, p) && CleanFaults(choice.faults) && k.pc.Succeeded?
    ensures var (w', k') := Work(max, w, k, choice); k'.task == k.task && Proceeds(max, w, p, w', k')
  {
    hide ApplyEvent, Transition, Success;
    Exact.Edges(k.task.kind);
    NoRetry(k.task.kind);
    ApplyClean(w, PostSuccess(w.db[k.task.name], k.task.kind), Success(k.task.kind), choice.faults);
  }

  lemma FailureProceeds(max: nat, w: World, k: Worker, choice: Choice, p: Begun)
    requires Underway(max, w, k, p) && CleanFaults(choice.faults) && (k.pc.Failed? || k.pc.Exhausted?)
    ensures var (w', k') := Work(max, w, k, choice); k'.task == k.task && Proceeds(max, w, p, w', k')
  {
    hide ApplyEvent, Transition;
    Exact.Edges(k.task.kind);
    ApplyClean(w, w.db[k.task.name], if k.pc.Failed? then EventError else EventFail, choice.faults);
  }

  lemma RetryProceeds(max: nat, w: World, k: Worker, choice: Choice, p: Begun)
    requires Underway(max, w, k, p) && CleanFaults(choice.faults) && k.pc.Retrying?
    ensures var (w', k') := Work(max, w, k, choice); k'.task == k.task && Proceeds(max, w, p, w', k')
  {
    hide ApplyEvent, Transition;
    Exact.Edges(k.task.kind);
    ApplyClean(w, w.db[k.task.name], EventRetry, choice.faults);
  }

  lemma WorkProceeds(max: nat, w: World, k: Worker, choice: Choice, p: Begun)
    requires Underway(max, w, k, p) && CleanFaults(choice.faults)
    ensures var (w', k') := Work(max, w, k, choice); k'.task == k.task && Proceeds(max, w, p, w', k')
  {
    match k.pc
    case Succeeded => SuccessProceeds(max, w, k, choice, p);
    case Failed => FailureProceeds(max, w, k, choice, p);
    case Exhausted => FailureProceeds(max, w, k, choice, p);
    case Retrying => RetryProceeds(max, w, k, choice, p);
    case _ =>
  }

  lemma NoRetry(kind: Kind)
    ensures Success(kind) != EventRetry && Success(kind) != EventFail && Success(kind) != EventError
  {
  }

  // ----- In every clean run -----

  /** Whoever serves the volume serves the operation under way, and is where the log says. */
  ghost predicate ServedAs(max: nat, c: Core, name: string, open: Option<Begun>) {
    forall i | LiveFor(c, i, name) :: open.Some? && InStep(max, open.value, c.workers[i])
  }

  ghost predicate RecountsAt(
    max: nat, crashed: bool, c: Core, name: string, chapters: seq<Chapter>, open: Option<Begun>)
    requires name in c.world.db
  {
    var v := c.world.db[name];
    Recounts(max, crashed, Own(c.world.log, v.id), v.id, v.state, chapters, open) && ServedAs(max, c, name, open)
  }

  ghost predicate ToldAt(max: nat, crashed: bool, c: Core, name: string) {
    && (forall i, j | LiveFor(c, i, name) && LiveFor(c, j, name) :: i == j)
    && (name in c.world.db ==> exists chapters, open :: RecountsAt(max, crashed, c, name, chapters, open))
  }

  ghost predicate AllTold(max: nat, crashed: bool, c: Core) {
    forall name :: ToldAt(max, crashed, c, name)
  }

  lemma OtherStaysTold(max: nat, crashed: bool, c: Core, c': Core, subject: string, name: string)
    requires Elsewhere(c, c', subject) && name != subject && ToldAt(max, crashed, c, name)
    requires Effect(c.world, c'.world, subject) && DistinctIds(c'.world.db)
    ensures ToldAt(max, crashed, c', name)
  {
    hide Own, Recounts;
    if name in c.world.db {
      var chapters, open :| RecountsAt(max, crashed, c, name, chapters, open);
      if c'.world.log != c.world.log {
        OwnAppend(c.world.log, c'.world.log[|c.world.log|], c.world.db[name].id);
      }
      assert c'.world.db[name] == c.world.db[name];
      assert Own(c'.world.log, c.world.db[name].id) == Own(c.world.log, c.world.db[name].id);
      assert ServedAs(max, c', name, open);
      assert RecountsAt(max, crashed, c', name, chapters, open);
    }
  }

  lemma CancelStaysTold(max: nat, crashed: bool, c: Core, name: string)
    requires ToldAt(max, crashed, c, name)
    ensures ToldAt(max, crashed, c.(cancelled := true), name)
  {
    hide Own, Recounts;
    var c' := c.(cancelled := true);
    assert forall i :: LiveFor(c', i, name) == LiveFor(c, i, name);
    if name in c.world.db {
      var chapters, open :| RecountsAt(max, crashed, c, name, chapters, open);
      assert RecountsAt(max, crashed, c', name, chapters, open);
    }
  }

  /** The only worker of a volume has its next stage, and what it logs continues the story. */
  lemma WorkerContinues(
    max: nat, crashed: bool, c: Core, i: nat, w': World, k': Worker, chapters: seq<Chapter>, p: Begun)
    requires Live(c, i) && k'.task == c.workers[i].task && k'.task.name in c.world.db
    requires forall j | LiveFor(c, j, k'.task.name) :: j == i
    requires RecountsAt(max, crashed, c, k'.task.name, chapters, Some(p)) && Proceeds(max, c.world, p, w', k')
    ensures ToldAt(max, crashed, c.(world := w', workers := c.workers[i := k']), k'.task.name)
  {
    hide Own, InStep, Continues, Ahead, Completed, Told, Opening, ChapterOk, StateOf;
    var n, w := k'.task.name, c.world;
    var c' := c.(world := w', workers := c.workers[i := k']);
    forall j | LiveFor(c', j, n) ensures j == i {
      assert LiveFor(c, j, n);
    }
    var id := w.db[n].id;
    if w'.log == w.log {
      assert RecountsAt(max, crashed, c', n, chapters, Some(p));
    } else {
      var e := w'.log[|w.log|];
      assert w'.log == w.log + [e];
      OwnAppend(w.log, e, id);
      AnyContinues(max, crashed, p, e);
      EntryContinues(max, crashed, Own(w.log, id), id, chapters, p, e);
      var chapters' := if Ahead(p, e).Some? then chapters else chapters + [Completed(max, p, e)];
      assert RecountsAt(max, crashed, c', n, chapters', Ahead(p, e));
    }
  }

  lemma AnyContinues(max: nat, crashed: bool, p: Begun, e: Entry)
    requires Continues(max, false, p, e)
    ensures Continues(max, crashed, p, e)
  {
  }

  lemma AdvanceStaysTold(max: nat, crashed: bool, c: Core, i: nat, choice: Choice)
    requires Filed(c) && Enabled(c, Advance(i, choice)) && CleanFaults(choice.faults)
    requires ToldAt(max, crashed, c, c.workers[i].task.name)
    ensures ToldAt(max, crashed, Next(max, c, Advance(i, choice)), c.workers[i].task.name)
  {
    hide Proceeds, Own, Recounts;
    var k := c.workers[i];
    assert Employed(c, i) && FiledAt(c, k.task.name) && LiveFor(c, i, k.task.name);
    var (w', k') := Work(max, c.world, k, choice);
    WorkKeepsTask(max, c.world, k, choice);
    var chapters, open :| RecountsAt(max, crashed, c, k.task.name, chapters, open);
    StateIsTold(max, crashed, c, k.task.name, chapters, open);
    WorkProceeds(max, c.world, k, choice, open.value);
    WorkerContinues(max, crashed, c, i, w', k', chapters, open.value);
  }

  lemma StateIsTold(max: nat, crashed: bool, c: Core, name: string, chapters: seq<Chapter>, open: Option<Begun>)
    requires name in c.world.db && RecountsAt(max, crashed, c, name, chapters, open)
    ensures open.Some? ==> c.world.db[name].state == StateOf(open.value)
  {
  }

  lemma WorkKeepsTask(max: nat, w: World, k: Worker, choice: Choice)
    ensures Work(max, w, k, choice).1.task == k.task
  {
  }

  /** A call that logs nothing starts nobody, and moves nothing. */
  lemma QuietCallContinues(
    max: nat, crashed: bool, c: Core, r: Response, name: string, chapters: seq<Chapter>, open: Option<Begun>)
    requires r.spawned.None? && r.world.log == c.world.log && name in c.world.db && name in r.world.db
    requires r.world.db[name].id == c.world.db[name].id && r.world.db[name].state == c.world.db[name].state
    requires RecountsAt(max, crashed, c, name, chapters, open)
    ensures RecountsAt(max, crashed, Respond(c, r), name, chapters, open)
  {
    hide Own, Recounts;
    assert forall i :: LiveFor(c, i, name) == LiveFor(Respond(c, r), i, name);
  }

  /** A call that logs its request, or a repair, when nobody works on the volume. */
  lemma LoggedCallContinues(
    max: nat, crashed: bool, c: Core, r: Response, name: string, chapters: seq<Chapter>, s: State, e: Entry)
    requires max >= 1 && name in r.world.db && e.volumeID == r.world.db[name].id && e.toState == r.world.db[name].state
    requires r.world.log == c.world.log + [e] && forall i :: !LiveFor(c, i, name)
    requires Recounts(max, crashed, Own(c.world.log, e.volumeID), e.volumeID, s, chapters, None)
    requires match r.spawned
             case Some(task) => task.name == name && e == RequestEntry(e.volumeID, task.kind)
             case None => Repairable(e.toState) && e == Entry(e.volumeID, Reconciled, Error, e.toState)
    ensures exists chapters', open :: RecountsAt(max, crashed, Respond(c, r), name, chapters', open)
  {
    var c', id := Respond(c, r), e.volumeID;
    OwnAppend(c.world.log, e, id);
    assert forall i | i < |c.workers| :: LiveFor(c', i, name) == LiveFor(c, i, name);
    if r.spawned.Some? {
      RequestOpens(max, crashed, Own(c.world.log, id), id, s, chapters, r.spawned.value.kind);
      hide Own, Recounts;
      assert RecountsAt(max, crashed, c', name, chapters, Some(Begun(r.spawned.value.kind, 0, false)));
    } else {
      RepairTells(max, crashed, Own(c.world.log, id), id, s, chapters, e.toState);
      hide Own, Recounts;
      assert RecountsAt(max, crashed, c', name, chapters + [Reconciliation(e.toState)], None);
    }
  }

  /** What a call logs is the request of the worker it starts, or a repair. */
  lemma CallEntry(w: World, r: Response, name: string, e: Entry)
    requires ApiLogs(w, r, name) && Recorded(w, r.world, name, e) && |r.world.log| == |w.log| + 1
    ensures match r.spawned
            case Some(task) => task.name == name && e == RequestEntry(e.volumeID, task.kind)
            case None => Repairable(e.toState) && e == Entry(e.volumeID, Reconciled, Error, e.toState)
  {
  }

  lemma NothingTold(max: nat, crashed: bool, id: string, s: State)
    requires !IsTransitional(s)
    ensures Recounts(max, crashed, [], id, s, [], None)
  {
  }

  /** A record that the call inserts has no entries yet, and nobody works on it. */
  lemma NewRecordTold(max: nat, crashed: bool, c: Core, r: Response, name: string)
    requires max >= 1 && Filed(c) && name !in c.world.db && name in r.world.db
    requires forall e <- c.world.log :: e.volumeID != r.world.db[name].id
    requires ApiLogs(c.world, r, name) && Effect(c.world, r.world, name)
    ensures ToldAt(max, crashed, Respond(c, r), name)
  {
    hide Own, Recounts;
    var id := r.world.db[name].id;
    NobodyServes(c, name);
    OwnNothing(c.world.log, id);
    NothingTold(max, crashed, id, Pending);
    if r.world.log == c.world.log {
      assert forall i :: LiveFor(c, i, name) == LiveFor(Respond(c, r), i, name);
      assert RecountsAt(max, crashed, Respond(c, r), name, [], None);
    } else {
      CallEntry(c.world, r, name, r.world.log[|c.world.log|]);
      LoggedCallContinues(max, crashed, c, r, name, [], Pending, r.world.log[|c.world.log|]);
    }
    OneAtMost(c, r, name);
  }

  lemma NobodyServes(c: Core, name: string)
    requires Filed(c) && name !in c.world.db
    ensures forall i :: !LiveFor(c, i, name)
  {
    forall i | Live(c, i) ensures c.workers[i].task.name != name {
      assert Employed(c, i);
    }
  }

  lemma OneAtMost(c: Core, r: Response, name: string)
    requires forall i, j | LiveFor(c, i, name) && LiveFor(c, j, name) :: i == j
    requires r.spawned.Some? ==> forall i :: !LiveFor(c, i, name)
    ensures forall i, j | LiveFor(Respond(c, r), i, name) && LiveFor(Respond(c, r), j, name) :: i == j
  {
    assert forall i | i < |c.workers| :: LiveFor(Respond(c, r), i, name) == LiveFor(c, i, name);
  }

  /** A call on a record: it finds it at rest, or does nothing. */
  lemma OldRecordTold(max: nat, crashed: bool, c: Core, r: Response, name: string)
    requires max >= 1 && name in c.world.db && name in r.world.db && r.world.db[name].id == c.world.db[name].id
    requires ToldAt(max, crashed, c, name) && ApiLogs(c.world, r, name) && Effect(c.world, r.world, name)
    ensures ToldAt(max, crashed, Respond(c, r), name)
  {
    hide Own, Told, Opening, InStep;
    var chapters, open :| RecountsAt(max, crashed, c, name, chapters, open);
    if r.world.log == c.world.log {
      QuietCallContinues(max, crashed, c, r, name, chapters, open);
      assert RecountsAt(max, crashed, Respond(c, r), name, chapters, open);
    } else {
      var e := r.world.log[|c.world.log|];
      assert Recorded(c.world, r.world, name, e);
      CallEntry(c.world, r, name, e);
      assert open.None? && forall i :: !LiveFor(c, i, name);
      hide Recounts, Effect, ApiLogs;
      LoggedCallContinues(max, crashed, c, r, name, chapters, c.world.db[name].state, e);
    }
    OneAtMost(c, r, name);
  }

  lemma BirthsDoNotTell(max: nat, crashed: bool, c: Core, born: map<string, State>, name: string)
    requires ToldAt(max, crashed, c, name)
    ensures ToldAt(max, crashed, c.(born := born), name)
  {
    hide Own, Recounts;
    var c' := c.(born := born);
    assert forall i :: LiveFor(c', i, name) == LiveFor(c, i, name);
    if name in c.world.db {
      var chapters, open :| RecountsAt(max, crashed, c, name, chapters, open);
      assert RecountsAt(max, crashed, c', name, chapters, open);
    }
  }

  lemma CallLogs(c: Core, step: Step)
    requires Enabled(c, step) && Clean(step) && !step.Advance? && !step.Cancel?
    requires FiledAt(c, step.name)
    ensures ApiLogs(c.world, ResponseTo(c, step), step.name)
  {
    match step
    case Create(name, sizeMB, id, backend, f) => CreateLogs(c.world, name, sizeMB, id, backend, f);
    case Attach(name, nodeID, f) => AttachLogs(c.world, name, nodeID, f);
    case Release(name, kind, f) => ReleaseLogs(c.world, name, kind, f);
    case Reconcile(name, reachable, f) => ReconcileLogs(c.world, name, reachable, f);
  }

  lemma CallStaysTold(max: nat, crashed: bool, c: Core, step: Step)
    requires max >= 1 && Filed(c) && Audited(c) && Enabled(c, step) && Clean(step)
    requires !step.Advance? && !step.Cancel? && ToldAt(max, crashed, c, step.name)
    ensures ToldAt(max, crashed, Next(max, c, step), step.name)
  {
    var n, c', r := step.name, Next(max, c, step), ResponseTo(c, step);
    assert FiledAt(c, n);
    StepEffect(max, c, step);
    IdStays(max, c, step);
    CallLogs(c, step);
    assert c' == Respond(c, r).(born := c'.born);
    hide ToldAt, Effect, ApiLogs;
    if n in c.world.db {
      OldRecordTold(max, crashed, c, r, n);
    } else if n in r.world.db {
      NewRecordTold(max, crashed, c, r, n);
    } else {
      AbsentTold(max, crashed, c, r, n);
    }
    BirthsDoNotTell(max, crashed, Respond(c, r), c'.born, n);
  }

  lemma AbsentTold(max: nat, crashed: bool, c: Core, r: Response, name: string)
    requires Filed(c) && name !in c.world.db && name !in r.world.db && ApiLogs(c.world, r, name)
    ensures ToldAt(max, crashed, Respond(c, r), name)
  {
    NobodyServes(c, name);
    OneAtMost(c, r, name);
  }

  lemma StepStaysTold(max: nat, crashed: bool, c: Core, step: Step)
    requires max >= 1 && Filed(c) && Audited(c) && AllTold(max, crashed, c) && Enabled(c, step) && Clean(step)
    ensures AllTold(max, crashed, Next(max, c, step))
  {
    forall name ensures ToldAt(max, crashed, Next(max, c, step), name) {
      assert ToldAt(max, crashed, c, name);
      hide ToldAt;
      if step.Cancel? {
        CancelStaysTold(max, crashed, c, name);
      } else if name != Subject(c, step) {
        StepElsewhere(max, c, step);
        StepEffect(max, c, step);
        IdsStayDistinct(max, c, step);
        OtherStaysTold(max, crashed, c, Next(max, c, step), Subject(c, step), name);
      } else if step.Advance? {
        AdvanceStaysTold(max, crashed, c, step.worker, step.choice);
      } else {
        CallStaysTold(max, crashed, c, step);
      }
    }
  }

  lemma {:induction false} RunStaysTold(max: nat, crashed: bool, c: Core, steps: seq<Step>)
    requires max >= 1 && Filed(c) && Audited(c) && AllTold(max, crashed, c) && IsRun(max, c, steps) && CleanRun(steps)
    ensures AllTold(max, crashed, Run(max, c, steps))
    decreases |steps|
  {
    if steps != [] {
      StepKeepsFiled(max, c, steps[0]);
      StepStaysAudited(max, c, steps[0]);
      StepStaysTold(max, crashed, c, steps[0]);
      RunStaysTold(max, crashed, Next(max, c, steps[0]), steps[1..]);
    }
  }

  /**
   The whole audit log of a volume, in every sound run from the empty system: operations, each
   its request and then errors and retries up to the success or the last permitted failure,
   and repairs; and, exactly while a worker serves the volume, the opening of one more
   operation, as far as that worker has come.
   */
  lemma LogIsAStory(max: nat, steps: seq<Step>, name: string)
    requires max >= 1 && IsRun(max, EMPTY, steps) && Exact.SoundRun(steps)
    ensures var c := Run(max, EMPTY, steps);
            name in c.world.db ==>
              exists chapters, open ::
                && RecountsAt(max, false, c, name, chapters, open)
                && (open.Some? <==> exists i :: LiveFor(c, i, name))
  {
    assert AllTold(max, false, EMPTY);
    EmptyInv(max);
    RunStaysTold(max, false, EMPTY, steps);
    Exact.OneWorkerExactlyWhileTransitional(max, steps, name);
    var c := Run(max, EMPTY, steps);
    assert ToldAt(max, false, c, name);
    if name in c.world.db {
      var chapters, open :| RecountsAt(max, false, c, name, chapters, open);
      assert open.Some? <==> IsTransitional(c.world.db[name].state);
    }
  }
}
