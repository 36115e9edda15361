/**
 The audit log replays to the database, and accounts for every retry, as long as
 SaveEvent works and no DB write is reported failed after taking effect.
 */
module Audit {
  import opened Storage
  import opened Fsm
  import opened Lifecycle
  import opened Engine
  import opened Filing
  import opened Agreement

  // ----- Replaying a log -----

  /** Follows a volume's entries from the state it was born in; None when they do not chain. */
  function Replay(log: seq<Entry>, id: string, born: State): Option<State> {
    if log == [] then Some(born)
    else
      var sofar := Replay(log[..|log| - 1], id, born);
      var e := log[|log| - 1];
      if e.volumeID != id then sofar
      else if sofar == Some(e.fromState) then Some(e.toState)
      else None
  }

  /**
   An FSM entry is an edge of the table.  A repair leaves the error state, or, at startup, a
   transitional state for available.
   */
  predicate EntryOk(e: Entry) {
    match e.cause
    case Applied(event) => Transition(e.fromState, event) == Some(e.toState)
    case Reconciled =>
      || (e.fromState == Error && Repairable(e.toState))
      || (IsTransitional(e.fromState) && e.toState == Available)
  }

  /** What an API reconcile can find in the backend. */
  predicate Repairable(s: State) {
    s == Pending || s == Available || s == Attached
  }

  /** What API calls and workers log. */
  predicate ApiEntryOk(e: Entry) {
    EntryOk(e) && (e.cause.Reconciled? ==> e.fromState == Error)
  }

  /** What the startup pass logs. */
  predicate StartupEntryOk(e: Entry) {
    EntryOk(e) && (e.cause.Reconciled? ==> IsTransitional(e.fromState))
  }

  ghost predicate EntriesOk(log: seq<Entry>) {
    forall e <- log :: EntryOk(e)
  }

  lemma ReplayAppend(log: seq<Entry>, e: Entry, id: string, born: State)
    ensures Replay(log + [e], id, born) ==
            if e.volumeID != id then Replay(log, id, born)
            else if Replay(log, id, born) == Some(e.fromState) then Some(e.toState)
            else None
  {
    assert (log + [e])[..|log|] == log;
  }

  lemma {:induction false} ReplayNothing(log: seq<Entry>, id: string, born: State)
    requires forall e <- log :: e.volumeID != id
    ensures Replay(log, id, born) == Some(born)
  {
    if log != [] {
      ReplayNothing(log[..|log| - 1], id, born);
    }
  }

  // ----- What one step does to the log -----

  /** SaveEvent works, and no update takes effect while being reported as failed. */
  predicate CleanFaults(f: Faults) {
    f.saved && !f.update.Unacknowledged?
  }

  predicate Clean(step: Step) {
    match step
    case Create(_, _, _, _, f) => CleanFaults(f)
    case Attach(_, _, f) => CleanFaults(f)
    case Release(_, _, f) => CleanFaults(f)
    case Reconcile(_, _, f) => CleanFaults(f)
    case Advance(_, choice) => CleanFaults(choice.faults)
    case Cancel => true
  }

  ghost predicate CleanRun(steps: seq<Step>) {
    forall step <- steps :: Clean(step)
  }

  /** The state before a step; a record is born pending. */
  function Before(w: World, name: string): State {
    if name in w.db then w.db[name].state else Pending
  }

  /** What subscribers are told about an entry: FSM events only. */
  function Announcement(name: string, e: Entry): seq<StateEvent> {
    match e.cause
    case Applied(event) => [StateEvent(name, e.toState, event)]
    case Reconciled => []
  }

  predicate Quiet(w: World, w': World, name: string) {
    && w'.log == w.log && w'.feed == w.feed
    && (name in w'.db ==> w'.db[name].state == Before(w, name))
  }

  /** The step moved one record, and log and feed tell exactly that. */
  predicate Recorded(w: World, w': World, name: string, e: Entry) {
    && name in w'.db
    && e.volumeID == w'.db[name].id && e.fromState == Before(w, name) && e.toState == w'.db[name].state
    && ApiEntryOk(e)
    && w'.log == w.log + [e]
    && w'.feed == w.feed + Announcement(name, e)
  }

  predicate Effect(w: World, w': World, name: string) {
    Quiet(w, w', name) || (|w'.log| > 0 && Recorded(w, w', name, w'.log[|w'.log| - 1]))
  }

  lemma CreateEffect(w: World, name: string, sizeMB: int, id: string, backend: string, f: Faults)
    requires CleanFaults(f)
    ensures Effect(w, Lifecycle.CreateVolume(w, name, sizeMB, id, backend, f).world, name)
  {
  }

  lemma AttachEffect(w: World, name: string, nodeID: string, f: Faults)
    requires CleanFaults(f) && (name in w.db ==> w.db[name].name == name)
    ensures Effect(w, Lifecycle.AttachVolume(w, name, nodeID, f).world, name)
  {
  }

  lemma ReleaseEffect(w: World, name: string, kind: Kind, f: Faults)
    requires CleanFaults(f) && (name in w.db ==> w.db[name].name == name)
    ensures Effect(w, Lifecycle.ReleaseVolume(w, name, kind, f).world, name)
  {
  }

  lemma ReconcileEffect(w: World, name: string, reachable: bool, f: Faults)
    requires CleanFaults(f) && (name in w.db ==> w.db[name].name == name)
    ensures Effect(w, Lifecycle.ReconcileVolume(w, name, reachable, f).world, name)
  {
  }

  lemma WorkEffect(max: nat, w: World, k: Worker, choice: Choice)
    requires CleanFaults(choice.faults) && (k.task.name in w.db ==> w.db[k.task.name].name == k.task.name)
    ensures Effect(w, Work(max, w, k, choice).0, k.task.name)
  {
  }

  lemma StepEffect(max: nat, c: Core, step: Step)
    requires Filed(c) && Enabled(c, step) && Clean(step) && !step.Cancel?
    ensures Effect(c.world, Next(max, c, step).world, Subject(c, step))
  {
    assert FiledAt(c, Subject(c, step));
    match step
    case Create(name, sizeMB, id, backend, f) => CreateEffect(c.world, name, sizeMB, id, backend, f);
    case Attach(name, nodeID, f) => AttachEffect(c.world, name, nodeID, f);
    case Release(name, kind, f) => ReleaseEffect(c.world, name, kind, f);
    case Reconcile(name, reachable, f) => ReconcileEffect(c.world, name, reachable, f);
    case Advance(i, choice) => WorkEffect(max, c.world, c.workers[i], choice);
  }

  // ----- The log replays to the database -----

  predicate ReplaysAt(c: Core, name: string) {
    name in c.world.db ==>
      && c.world.db[name].id in c.born
      && Replay(c.world.log, c.world.db[name].id, c.born[c.world.db[name].id]) == Some(c.world.db[name].state)
  }

  ghost predicate Audited(c: Core) {
    && EntriesOk(c.world.log)
    && (forall e <- c.world.log :: e.volumeID in c.born)
    && (forall name :: ReplaysAt(c, name))
  }

  /** IDs once born keep their birth state; a fresh one is born pending. */
  lemma BirthsStay(max: nat, c: Core, step: Step)
    requires Filed(c) && Enabled(c, step) && !step.Cancel?
    ensures var c' := Next(max, c, step);
            && (forall id <- c.born :: id in c'.born && c'.born[id] == c.born[id])
            && (Subject(c, step) in c'.world.db && Subject(c, step) !in c.world.db ==>
                  step.Create? && c'.born == c.born[step.id := Pending])
  {
    assert FiledAt(c, Subject(c, step));
    if step.Advance? {
      assert Employed(c, step.worker);
    }
  }

  lemma StepStaysAudited(max: nat, c: Core, step: Step)
    requires Filed(c) && Audited(c) && Enabled(c, step) && Clean(step)
    ensures Audited(Next(max, c, step))
  {
    StepStaysAuditedExactlyWhen(max, c, step);
  }

  /**
   In every state any clean run reaches: each volume's entries form one chain from the
   state it was inserted in to its current state, along edges of the table except for
   repairs, which leave the error state.
   */
  lemma {:induction false} RunStaysAudited(max: nat, c: Core, steps: seq<Step>)
    requires Filed(c) && Audited(c) && IsRun(max, c, steps) && CleanRun(steps)
    ensures Filed(Run(max, c, steps)) && Audited(Run(max, c, steps))
    decreases |steps|
  {
    if steps != [] {
      StepKeepsFiled(max, c, steps[0]);
      StepStaysAudited(max, c, steps[0]);
      RunStaysAudited(max, Next(max, c, steps[0]), steps[1..]);
    }
  }

  /** API calls and workers log no startup repairs. */
  lemma {:induction false} RunLogsApiEntries(max: nat, c: Core, steps: seq<Step>)
    requires Filed(c) && IsRun(max, c, steps) && CleanRun(steps)
    requires forall e <- c.world.log :: ApiEntryOk(e)
    ensures forall e <- Run(max, c, steps).world.log :: ApiEntryOk(e)
    decreases |steps|
  {
    if steps != [] {
      StepKeepsFiled(max, c, steps[0]);
      if !steps[0].Cancel? {
        StepEffect(max, c, steps[0]);
      }
      RunLogsApiEntries(max, Next(max, c, steps[0]), steps[1..]);
    }
  }

  // ----- Exactly when the log follows -----

  predicate ChangesState(w: World, w': World, name: string) {
    name in w'.db && w'.db[name].state != Before(w, name)
  }

  /** The entry of a move is written, and the mover is told that its update took effect. */
  predicate LogsMoves(f: Faults) {
    f.saved && !f.update.Unacknowledged?
  }

  /** One entry for a move whose entry is written; nothing else is ever logged. */
  predicate LoggedIfTold(w: World, w': World, name: string, f: Faults) {
    if ChangesState(w, w', name) && LogsMoves(f) then
      && |w'.log| > 0 && w'.log == w.log + [w'.log[|w'.log| - 1]]
      && var e := w'.log[|w'.log| - 1];
         && e.volumeID == w'.db[name].id && ApiEntryOk(e)
         && e.fromState == Before(w, name) && e.toState == w'.db[name].state
    else w'.log == w.log
  }

  lemma CreateLogsIfTold(w: World, name: string, sizeMB: int, id: string, backend: string, f: Faults)
    ensures LoggedIfTold(w, Lifecycle.CreateVolume(w, name, sizeMB, id, backend, f).world, name, f)
  {
  }

  lemma AttachLogsIfTold(w: World, name: string, nodeID: string, f: Faults)
    requires name in w.db ==> w.db[name].name == name
    ensures LoggedIfTold(w, Lifecycle.AttachVolume(w, name, nodeID, f).world, name, f)
  {
  }

  lemma ReleaseLogsIfTold(w: World, name: string, kind: Kind, f: Faults)
    requires name in w.db ==> w.db[name].name == name
    ensures LoggedIfTold(w, Lifecycle.ReleaseVolume(w, name, kind, f).world, name, f)
  {
  }

  lemma ReconcileLogsIfTold(w: World, name: string, reachable: bool, f: Faults)
    requires name in w.db ==> w.db[name].name == name
    ensures LoggedIfTold(w, Lifecycle.ReconcileVolume(w, name, reachable, f).world, name, f)
  {
  }

  lemma ApplyLogsIfTold(w: World, v: Volume, event: Event, f: Faults)
    requires v.name in w.db && v.state == w.db[v.name].state && v.id == w.db[v.name].id
    ensures LoggedIfTold(w, ApplyEvent(w, v, event, f).world, v.name, f)
  {
  }

  lemma WorkLogsIfTold(max: nat, w: World, k: Worker, choice: Choice)
    requires k.task.name in w.db && w.db[k.task.name].name == k.task.name
    ensures LoggedIfTold(w, Work(max, w, k, choice).0, k.task.name, choice.faults)
  {
    hide ApplyEvent, Serve;
    var v := w.db[k.task.name];
    match k.pc
    case Succeeded => ApplyLogsIfTold(w, PostSuccess(v, k.task.kind), Success(k.task.kind), choice.faults);
    case Failed => ApplyLogsIfTold(w, v, EventError, choice.faults);
    case Exhausted => ApplyLogsIfTold(w, v, EventFail, choice.faults);
    case Retrying => ApplyLogsIfTold(w, v, EventRetry, choice.faults);
    case _ =>
  }

  lemma StepLogsIfTold(max: nat, c: Core, step: Step)
    requires Filed(c) && Enabled(c, step) && !step.Cancel?
    ensures LoggedIfTold(c.world, Next(max, c, step).world, Subject(c, step), FaultsOf(step))
  {
    hide LoggedIfTold;
    assert FiledAt(c, Subject(c, step));
    match step
    case Create(name, sizeMB, id, backend, f) => CreateLogsIfTold(c.world, name, sizeMB, id, backend, f);
    case Attach(name, nodeID, f) => AttachLogsIfTold(c.world, name, nodeID, f);
    case Release(name, kind, f) => ReleaseLogsIfTold(c.world, name, kind, f);
    case Reconcile(name, reachable, f) => ReconcileLogsIfTold(c.world, name, reachable, f);
    case Advance(i, choice) =>
      assert Employed(c, i);
      WorkLogsIfTold(max, c.world, c.workers[i], choice);
  }

  /** If the step changes a state, its entry is written, and it is told that its update took effect. */
  predicate KeepsLog(max: nat, c: Core, step: Step)
    requires Enabled(c, step)
  {
    !step.Cancel? && ChangesState(c.world, Next(max, c, step).world, Subject(c, step)) ==> LogsMoves(FaultsOf(step))
  }

  /** The log and the record before, as the subject of a step finds them. */
  lemma FollowsSoFar(max: nat, c: Core, step: Step)
    requires Filed(c) && Audited(c) && Enabled(c, step) && !step.Cancel?
    ensures var n, c' := Subject(c, step), Next(max, c, step);
            n in c'.world.db ==>
              var id := c'.world.db[n].id;
              id in c'.born && Replay(c.world.log, id, c'.born[id]) == Some(Before(c.world, n))
  {
    var n, c' := Subject(c, step), Next(max, c, step);
    assert FiledAt(c, n) && ReplaysAt(c, n);
    IdStays(max, c, step);
    BirthsStay(max, c, step);
    if n in c'.world.db && n !in c.world.db {
      ReplayNothing(c.world.log, c'.world.db[n].id, Pending);
    }
  }

  /** The step's own volume: its log still leads to its record exactly when a change of state is logged. */
  lemma SubjectReplaysExactlyWhen(max: nat, c: Core, step: Step)
    requires Filed(c) && Audited(c) && Enabled(c, step) && !step.Cancel?
    ensures ReplaysAt(Next(max, c, step), Subject(c, step)) <==> KeepsLog(max, c, step)
  {
    var n, c' := Subject(c, step), Next(max, c, step);
    StepLogsIfTold(max, c, step);
    FollowsSoFar(max, c, step);
    hide Replay, Next, Subject;
    if n in c'.world.db && c'.world.log != c.world.log {
      ReplayAppend(c.world.log, c'.world.log[|c.world.log|], c'.world.db[n].id, c'.born[c'.world.db[n].id]);
    }
  }

  lemma OtherStillReplays(max: nat, c: Core, step: Step, name: string)
    requires Filed(c) && Audited(c) && Enabled(c, step) && !step.Cancel? && name != Subject(c, step)
    ensures ReplaysAt(Next(max, c, step), name)
  {
    var w, w' := c.world, Next(max, c, step).world;
    StepLogsIfTold(max, c, step);
    StepElsewhere(max, c, step);
    IdsStayDistinct(max, c, step);
    assert ReplaysAt(c, name) && FiledAt(c, name);
    if name in w.db && w'.log != w.log {
      ReplayAppend(w.log, w'.log[|w.log|], w.db[name].id, c.born[w.db[name].id]);
    }
  }

  lemma EntriesStayOk(max: nat, c: Core, step: Step)
    requires Filed(c) && Audited(c) && Enabled(c, step) && !step.Cancel?
    ensures EntriesOk(Next(max, c, step).world.log)
    ensures forall e <- Next(max, c, step).world.log :: e.volumeID in Next(max, c, step).born
  {
    StepLogsIfTold(max, c, step);
    FollowsSoFar(max, c, step);
    BirthsStay(max, c, step);
  }

  /** Under any faults, a step keeps the log in step with every record exactly when it logs the change that it makes. */
  lemma StepStaysAuditedExactlyWhen(max: nat, c: Core, step: Step)
    requires Filed(c) && Audited(c) && Enabled(c, step)
    ensures Audited(Next(max, c, step)) <==> KeepsLog(max, c, step)
  {
    if step.Cancel? {
      assert forall name :: ReplaysAt(c, name) ==> ReplaysAt(Next(max, c, step), name);
      return;
    }
    SubjectReplaysExactlyWhen(max, c, step);
    EntriesStayOk(max, c, step);
    var c' := Next(max, c, step);
    forall name | name != Subject(c, step) ensures ReplaysAt(c', name) {
      OtherStillReplays(max, c, step, name);
    }
    hide KeepsLog, EntriesOk, Replay;
  }

  /** At every moment of the run the log replays to the database. */
  ghost predicate AlwaysAudited(max: nat, c: Core, steps: seq<Step>)
    requires IsRun(max, c, steps)
    decreases |steps|
  {
    Audited(c) && (steps != [] ==> AlwaysAudited(max, Next(max, c, steps[0]), steps[1..]))
  }

  ghost predicate AlwaysKeepsLog(max: nat, c: Core, steps: seq<Step>)
    requires IsRun(max, c, steps)
    decreases |steps|
  {
    steps != [] ==> KeepsLog(max, c, steps[0]) && AlwaysKeepsLog(max, Next(max, c, steps[0]), steps[1..])
  }

  /** Under any faults, the log replays to the database at every moment of a run exactly when every change is logged. */
  lemma {:induction false} RunStaysAuditedExactlyWhen(max: nat, c: Core, steps: seq<Step>)
    requires Filed(c) && Audited(c) && IsRun(max, c, steps)
    ensures AlwaysAudited(max, c, steps) <==> AlwaysKeepsLog(max, c, steps)
    decreases |steps|
  {
    if steps != [] {
      StepKeepsFiled(max, c, steps[0]);
      StepStaysAuditedExactlyWhen(max, c, steps[0]);
      if Audited(Next(max, c, steps[0])) {
        RunStaysAuditedExactlyWhen(max, Next(max, c, steps[0]), steps[1..]);
      }
    }
  }

  /** From the empty system on: the log of a volume, followed from pending, leads to its present state. */
  lemma LogTellsState(max: nat, steps: seq<Step>, name: string)
    requires IsRun(max, EMPTY, steps) && CleanRun(steps)
    ensures var w := Run(max, EMPTY, steps).world;
            && (forall e <- w.log :: ApiEntryOk(e))
            && (name in w.db ==> Replay(w.log, w.db[name].id, Pending) == Some(w.db[name].state))
  {
    EmptyInv(max);
    RunStaysAudited(max, EMPTY, steps);
    RunBornPending(max, EMPTY, steps);
    RunLogsApiEntries(max, EMPTY, steps);
    assert ReplaysAt(Run(max, EMPTY, steps), name);
  }

  // ----- Counting -----

  predicate Is(e: Entry, id: string, event: Event) {
    e.volumeID == id && e.cause == Applied(event)
  }

  function Count(log: seq<Entry>, id: string, event: Event): nat {
    if log == [] then 0
    else Count(log[..|log| - 1], id, event) + if Is(log[|log| - 1], id, event) then 1 else 0
  }

  /** The startup repairs that leave a failed state. */
  function Repairs(log: seq<Entry>, id: string): nat {
    if log == [] then 0
    else Repairs(log[..|log| - 1], id) + if Rescues(log[|log| - 1], id) then 1 else 0
  }

  predicate Rescues(e: Entry, id: string) {
    e.volumeID == id && e.cause.Reconciled? && IsBroken(e.fromState)
  }

  /** Exactly the error entries enter a failed state; exactly the retry and fail entries and such repairs leave one. */
  lemma EntryOpensOrCloses(e: Entry)
    requires EntryOk(e)
    ensures e.cause == Applied(EventError) <==> !IsBroken(e.fromState) && IsBroken(e.toState)
    ensures e.cause == Applied(EventRetry) || e.cause == Applied(EventFail) || Rescues(e, e.volumeID)
       <==> IsBroken(e.fromState) && !IsBroken(e.toState)
    ensures !(IsBroken(e.fromState) && IsBroken(e.toState))
  {
  }

  /**
   Every error, and a failed birth, is answered by a retry, a fail or a startup repair, except one
   that is open now.
   */
  lemma {:induction false} ErrorsAreAnswered(log: seq<Entry>, id: string, born: State)
    requires EntriesOk(log) && Replay(log, id, born).Some?
    ensures Count(log, id, EventError) + (if IsBroken(born) then 1 else 0) ==
            Count(log, id, EventRetry) + Count(log, id, EventFail) + Repairs(log, id)
            + if IsBroken(Replay(log, id, born).value) then 1 else 0
  {
    if log != [] {
      var front, e := log[..|log| - 1], log[|log| - 1];
      assert forall e <- front :: e in log;
      assert e in log;
      EntryOpensOrCloses(e);
      ErrorsAreAnswered(front, id, born);
    }
  }

  lemma {:induction false} ApiLogsRepairNothing(log: seq<Entry>, id: string)
    requires forall e <- log :: ApiEntryOk(e)
    ensures Repairs(log, id) == 0
  {
    if log != [] {
      assert log[|log| - 1] in log;
      ApiLogsRepairNothing(log[..|log| - 1], id);
    }
  }

  /** Entries since the last request: errors, retries and fails. */
  datatype Tally = Tally(errors: nat, retries: nat, fails: nat)

  predicate IsRequest(e: Event) {
    e == EventCreate || e == EventAttach || e == EventDetach || e == EventDelete
  }

  function Tallied(t: Tally, e: Entry, id: string): Tally {
    if e.volumeID != id || e.cause.Reconciled? then t
    else if IsRequest(e.cause.event) then Tally(0, 0, 0)
    else match e.cause.event
         case EventError => t.(errors := t.errors + 1)
         case EventRetry => t.(retries := t.retries + 1)
         case EventFail => t.(fails := t.fails + 1)
         case _ => t
  }

  function TallyOf(log: seq<Entry>, id: string): Tally {
    if log == [] then Tally(0, 0, 0)
    else Tallied(TallyOf(log[..|log| - 1], id), log[|log| - 1], id)
  }

  lemma TallyAppend(log: seq<Entry>, e: Entry, id: string)
    ensures TallyOf(log + [e], id) == Tallied(TallyOf(log, id), e, id)
  {
    assert (log + [e])[..|log|] == log;
  }

  lemma {:induction false} TallyNothing(log: seq<Entry>, id: string)
    requires forall e <- log :: e.volumeID != id
    ensures TallyOf(log, id) == Tally(0, 0, 0)
  {
    if log != [] {
      TallyNothing(log[..|log| - 1], id);
    }
  }

  /**
   How far the log of the current operation has come, by its worker's attempt.  A volume
   still failed at the start of an attempt is one whose retry event was skipped.
   */
  predicate TallyFits(t: Tally, s: State, k: Worker) {
    && t.fails == 0
    && if s == Busy(k.task.kind) then t.errors == k.attempt - 1 && t.retries == k.attempt - 1
       else if k.pc.Exhausted? || k.pc.Waiting? || k.pc.Retrying? then
         t.errors == k.attempt && t.retries == k.attempt - 1
       else k.attempt >= 2 && t.errors == k.attempt - 1 && t.retries == k.attempt - 2
  }

  /** The bounds that hold at every moment, worker or not. */
  predicate TallyBounded(max: nat, t: Tally, s: State) {
    && t.errors <= max && t.retries < max && t.fails <= 1
    && (t.fails == 1 <==> t.errors == max && !IsBroken(s))
  }

  ghost predicate CountedAt(max: nat, c: Core, name: string) {
    name in c.world.db ==>
      var t := TallyOf(c.world.log, c.world.db[name].id);
      && TallyBounded(max, t, c.world.db[name].state)
      && (forall i | LiveFor(c, i, name) :: TallyFits(t, c.world.db[name].state, c.workers[i]))
  }

  ghost predicate Counted(max: nat, c: Core) {
    forall name :: CountedAt(max, c, name)
  }

  lemma OtherStaysCounted(max: nat, c: Core, c': Core, subject: string, name: string)
    requires Elsewhere(c, c', subject) && name != subject && CountedAt(max, c, name)
    requires Effect(c.world, c'.world, subject) && DistinctIds(c'.world.db)
    ensures CountedAt(max, c', name)
  {
    if name in c.world.db && c'.world.log != c.world.log {
      TallyAppend(c.world.log, c'.world.log[|c.world.log|], c.world.db[name].id);
    }
  }

  /** A clean event either changes nothing or moves the record and logs one entry. */
  lemma ApplyClean(w: World, v: Volume, event: Event, f: Faults)
    requires CleanFaults(f) && v.name in w.db
    ensures var o := ApplyEvent(w, v, event, f);
            if o.failure.Some? then o.world == w
            else
              && CanTransition(v.state, event)
              && var next := Transition(v.state, event).value;
                 && o.world.log == w.log + [Entry(v.id, Applied(event), v.state, next)]
                 && o.world.db == w.db[v.name := v.(state := next)]
  {
  }

  /** The tally after a stage that went from one world to the next. */
  function TallyAfter(t: Tally, w: World, w': World, id: string): Tally {
    if |w'.log| <= |w.log| then t else Tallied(t, w'.log[|w.log|], id)
  }

  /** What a stage must leave behind for the count to be kept. */
  predicate Counts(max: nat, w: World, t: Tally, w': World, k': Worker) {
    && k'.task.name in w.db && k'.task.name in w'.db
    && var s' := w'.db[k'.task.name].state;
       var t' := TallyAfter(t, w, w', w.db[k'.task.name].id);
       TallyBounded(max, t', s') && (!k'.pc.Done? ==> TallyFits(t', s', k'))
  }

  /** The worker's tally is in order before a stage. */
  predicate Countable(max: nat, w: World, k: Worker, t: Tally) {
    && WorkerOk(max, w, k) && !k.pc.Done? && w.db[k.task.name].name == k.task.name
    && TallyBounded(max, t, w.db[k.task.name].state) && TallyFits(t, w.db[k.task.name].state, k)
  }

  lemma ErrorCounts(max: nat, w: World, k: Worker, choice: Choice, t: Tally)
    requires max >= 1 && Countable(max, w, k, t) && CleanFaults(choice.faults) && k.pc.Failed?
    ensures var (w', k') := Work(max, w, k, choice); Counts(max, w, t, w', k')
  {
    ApplyClean(w, w.db[k.task.name], EventError, choice.faults);
  }

  lemma RetryCounts(max: nat, w: World, k: Worker, choice: Choice, t: Tally)
    requires max >= 1 && Countable(max, w, k, t) && CleanFaults(choice.faults) && k.pc.Retrying?
    ensures var (w', k') := Work(max, w, k, choice); Counts(max, w, t, w', k')
  {
    ApplyClean(w, w.db[k.task.name], EventRetry, choice.faults);
  }

  lemma LastStageCounts(max: nat, w: World, k: Worker, choice: Choice, t: Tally)
    requires max >= 1 && Countable(max, w, k, t) && CleanFaults(choice.faults) && (k.pc.Succeeded? || k.pc.Exhausted?)
    ensures var (w', k') := Work(max, w, k, choice); Counts(max, w, t, w', k')
  {
    hide ApplyEvent, Fits, ShapeOf;
    var event := if k.pc.Succeeded? then Success(k.task.kind) else EventFail;
    var v := w.db[k.task.name];
    ApplyClean(w, if k.pc.Succeeded? then PostSuccess(v, k.task.kind) else v, event, choice.faults);
  }

  /** One stage, with its log entry, keeps the count. */
  lemma WorkCounts(max: nat, w: World, k: Worker, choice: Choice, t: Tally)
    requires max >= 1 && Countable(max, w, k, t) && CleanFaults(choice.faults)
    ensures var (w', k') := Work(max, w, k, choice); Counts(max, w, t, w', k')
  {
    match k.pc
    case Succeeded => LastStageCounts(max, w, k, choice, t);
    case Failed => ErrorCounts(max, w, k, choice, t);
    case Exhausted => LastStageCounts(max, w, k, choice, t);
    case Retrying => RetryCounts(max, w, k, choice, t);
    case _ =>
  }

  lemma AdvanceStaysCounted(max: nat, c: Core, i: nat, w': World, k': Worker)
    requires Live(c, i) && k'.task == c.workers[i].task && SoloAt(max, c, k'.task.name)
    requires k'.task.name in c.world.db && k'.task.name in w'.db
    requires w'.db[k'.task.name].id == c.world.db[k'.task.name].id
    requires Effect(c.world, w', k'.task.name)
    requires Counts(max, c.world, TallyOf(c.world.log, c.world.db[k'.task.name].id), w', k')
    ensures CountedAt(max, c.(world := w', workers := c.workers[i := k']), k'.task.name)
  {
    var n := k'.task.name;
    var c' := c.(world := w', workers := c.workers[i := k']);
    assert LiveFor(c, i, n);
    if w'.log != c.world.log {
      TallyAppend(c.world.log, w'.log[|c.world.log|], c.world.db[n].id);
    }
    forall j | LiveFor(c', j, n) ensures j == i {
      assert LiveFor(c, j, n);
    }
  }

  /** An API call logs nothing, or the request of the worker it starts, or a repair of the error state. */
  predicate ApiLogs(w: World, r: Response, name: string) {
    if r.world.log == w.log then r.spawned.None? && (name in r.world.db ==> r.world.db[name].state == Before(w, name))
    else
      && name in r.world.db
      && |r.world.log| == |w.log| + 1
      && r.world.log[..|w.log|] == w.log
      && var e := r.world.log[|w.log|];
         && e.volumeID == r.world.db[name].id
         && AtRest(w, name)
         && match r.spawned
            case Some(task) =>
              e.cause == Applied(Request(task.kind)) && task.name == name && r.world.db[name].state == Busy(task.kind)
            case None =>
              e.cause.Reconciled? && !IsTransitional(r.world.db[name].state)
  }

  lemma CreateLogs(w: World, name: string, sizeMB: int, id: string, backend: string, f: Faults)
    requires CleanFaults(f)
    ensures ApiLogs(w, Lifecycle.CreateVolume(w, name, sizeMB, id, backend, f), name)
  {
  }

  lemma AttachLogs(w: World, name: string, nodeID: string, f: Faults)
    requires CleanFaults(f) && (name in w.db ==> w.db[name].name == name)
    ensures ApiLogs(w, Lifecycle.AttachVolume(w, name, nodeID, f), name)
  {
  }

  lemma ReleaseLogs(w: World, name: string, kind: Kind, f: Faults)
    requires CleanFaults(f) && (name in w.db ==> w.db[name].name == name) && (kind.DetachOp? || kind.DeleteOp?)
    ensures ApiLogs(w, Lifecycle.ReleaseVolume(w, name, kind, f), name)
  {
  }

  lemma ReconcileLogs(w: World, name: string, reachable: bool, f: Faults)
    requires CleanFaults(f) && (name in w.db ==> w.db[name].name == name)
    ensures ApiLogs(w, Lifecycle.ReconcileVolume(w, name, reachable, f), name)
  {
  }

  /** A logging call finds no worker, so the count of the volume starts anew or stays closed. */
  lemma RespondStaysCounted(max: nat, c: Core, r: Response, name: string)
    requires max >= 1 && SoloAt(max, c, name) && CountedAt(max, c, name) && ApiLogs(c.world, r, name)
    requires name in c.world.db && name in r.world.db ==> r.world.db[name].id == c.world.db[name].id
    requires name !in c.world.db && name in r.world.db ==> forall e <- c.world.log :: e.volumeID != r.world.db[name].id
    ensures CountedAt(max, Respond(c, r), name)
  {
    var c' := Respond(c, r);
    if name in r.world.db {
      var id := r.world.db[name].id;
      if name !in c.world.db {
        TallyNothing(c.world.log, id);
      }
      if r.world.log != c.world.log {
        assert r.world.log == c.world.log + [r.world.log[|c.world.log|]];
        TallyAppend(c.world.log, r.world.log[|c.world.log|], id);
      }
      forall i | LiveFor(c', i, name) && i < |c.workers| ensures LiveFor(c, i, name) && c'.workers[i] == c.workers[i] {
        assert c'.workers[i] == c.workers[i];
      }
    }
  }

  lemma CallStaysCounted(max: nat, c: Core, step: Step)
    requires max >= 1 && Inv(max, c) && Audited(c) && Counted(max, c)
    requires Enabled(c, step) && Clean(step) && !step.Advance? && !step.Cancel?
    ensures CountedAt(max, Next(max, c, step), step.name)
  {
    var n := step.name;
    assert InvAt(max, c, n) && CountedAt(max, c, n);
    IdStays(max, c, step);
    match step
    case Create(name, sizeMB, id, backend, f) =>
      CreateLogs(c.world, name, sizeMB, id, backend, f);
      RespondStaysCounted(max, c, Lifecycle.CreateVolume(c.world, name, sizeMB, id, backend, f), name);
    case Attach(name, nodeID, f) =>
      AttachLogs(c.world, name, nodeID, f);
      RespondStaysCounted(max, c, Lifecycle.AttachVolume(c.world, name, nodeID, f), name);
    case Release(name, kind, f) =>
      ReleaseLogs(c.world, name, kind, f);
      RespondStaysCounted(max, c, Lifecycle.ReleaseVolume(c.world, name, kind, f), name);
    case Reconcile(name, reachable, f) =>
      ReconcileLogs(c.world, name, reachable, f);
      RespondStaysCounted(max, c, Lifecycle.ReconcileVolume(c.world, name, reachable, f), name);
  }

  lemma StepStaysCounted(max: nat, c: Core, step: Step)
    requires max >= 1 && Inv(max, c) && Audited(c) && Counted(max, c) && Enabled(c, step) && Clean(step)
    ensures Counted(max, Next(max, c, step))
  {
    hide TallyOf, Audited;
    var c' := Next(max, c, step);
    StepKeeps(max, c, step);
    if !step.Cancel? {
      StepElsewhere(max, c, step);
      StepEffect(max, c, step);
    }
    forall name ensures CountedAt(max, c', name) {
      assert CountedAt(max, c, name);
      if step.Cancel? {
        assert forall i | LiveFor(c', i, name) :: LiveFor(c, i, name);
      } else if name != Subject(c, step) {
        OtherStaysCounted(max, c, c', Subject(c, step), name);
      } else if step.Advance? {
        assert InvAt(max, c, name) && LiveFor(c, step.worker, name);
        IdStays(max, c, step);
        WorkCounts(max, c.world, c.workers[step.worker], step.choice, TallyOf(c.world.log, c.world.db[name].id));
        var (w', k') := Work(max, c.world, c.workers[step.worker], step.choice);
        AdvanceStaysCounted(max, c, step.worker, w', k');
      } else {
        CallStaysCounted(max, c, step);
      }
    }
  }

  lemma {:induction false} RunStaysCounted(max: nat, c: Core, steps: seq<Step>)
    requires max >= 1 && Inv(max, c) && Audited(c) && Counted(max, c) && IsRun(max, c, steps) && CleanRun(steps)
    ensures Audited(Run(max, c, steps)) && Counted(max, Run(max, c, steps))
    decreases |steps|
  {
    if steps != [] {
      StepKeeps(max, c, steps[0]);
      StepStaysAudited(max, c, steps[0]);
      StepStaysCounted(max, c, steps[0]);
      RunStaysCounted(max, Next(max, c, steps[0]), steps[1..]);
    }
  }

  /**
   Retry accounting in every clean run from the empty system: per volume, errors are
   retries plus fails plus one if it is failed now; no operation logs more than max - 1
   retries; and a fail is logged exactly when the operation has logged max errors and
   the last of them is no longer open.
   */
  lemma RetriesAddUp(max: nat, steps: seq<Step>, name: string)
    requires max >= 1 && IsRun(max, EMPTY, steps) && CleanRun(steps)
    ensures var c := Run(max, EMPTY, steps);
            name in c.world.db ==>
              var v := c.world.db[name];
              var t := TallyOf(c.world.log, v.id);
              && Count(c.world.log, v.id, EventError) ==
                 Count(c.world.log, v.id, EventRetry) + Count(c.world.log, v.id, EventFail)
                 + (if IsBroken(v.state) then 1 else 0)
              && t.errors <= max && t.retries <= max - 1 && t.fails <= 1
              && (t.fails == 1 <==> t.errors == max && !IsBroken(v.state))
  {
    EmptyInv(max);
    RunStaysCounted(max, EMPTY, steps);
    RunBornPending(max, EMPTY, steps);
    RunLogsApiEntries(max, EMPTY, steps);
    var c := Run(max, EMPTY, steps);
    if name in c.world.db {
      assert ReplaysAt(c, name) && CountedAt(max, c, name);
      ErrorsAreAnswered(c.world.log, c.world.db[name].id, Pending);
      ApiLogsRepairNothing(c.world.log, c.world.db[name].id);
    }
  }

  /** Every record the API inserts is born pending. */
  lemma {:induction false} RunBornPending(max: nat, c: Core, steps: seq<Step>)
    requires IsRun(max, c, steps) && forall id <- c.born :: c.born[id] == Pending
    ensures forall id <- Run(max, c, steps).born :: Run(max, c, steps).born[id] == Pending
    decreases |steps|
  {
    if steps != [] {
      RunBornPending(max, Next(max, c, steps[0]), steps[1..]);
    }
  }
}
