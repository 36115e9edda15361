/**
 The bound on attempts is tight: with eight or more, a subscriber that receives nothing
 while an attach fails for good loses the closing event.  And when updates can take effect
 while they are reported as failed, no bound helps.
 */
module SlowSubscriber {
  import opened Storage
  import opened Fsm
  import opened Lifecycle
  import opened Engine
  import opened Agreement
  import opened Channel
  import opened Feed
  import opened Streams
  import Exact

  /** Events the failing worker still publishes. */
  function Left(max: nat, k: Worker): int {
    match k.pc
    case Done => 0
    case Exhausted => 1
    case Waiting => 2 * (max - k.attempt) + 1
    case Retrying => 2 * (max - k.attempt) + 1
    case _ => 2 * (max - k.attempt) + 2
  }

  /** Volume "v" is being attached by a second worker, and one client has received nothing. */
  ghost predicate Hopeless(max: nat, s: Sys) {
    && |s.core.workers| == 2 && |s.clients| == 1
    && var k, cl := s.core.workers[1], s.clients[0];
       var sent := cl.chan.sent;
       && k.task == Task("v", AttachOp, 5, "n") && AttemptFits(max, k) && !k.pc.Succeeded?
       && "v" in s.core.world.db && s.core.world.db["v"].name == "v"
       && !s.core.cancelled
       && cl.name == "v" && cl.phase.Subscribed? && cl.chan.taken == [] && |cl.chan.queue| <= CAPACITY
       && |sent| + Left(max, k) == 2 * max + 1
       && if k.pc.Done? then HasTerminal(sent) && UpToTerminal(sent) == sent
          else
            && !HasTerminal(sent)
            && s.core.world.db["v"].state == StuckState(k)
  }

  function StuckState(k: Worker): State {
    if k.pc.Exhausted? || k.pc.Waiting? || k.pc.Retrying? then AttachingFailed else Attaching
  }

  /** One more stage of the failing worker: the next state, and what it publishes. */
  lemma Tick(max: nat, w: World, k: Worker)
    requires k.task == Task("v", AttachOp, 5, "n") && AttemptFits(max, k) && !k.pc.Succeeded? && !k.pc.Done?
    requires "v" in w.db && w.db["v"].name == "v" && w.db["v"].state == StuckState(k)
    ensures var (w', k') := Work(max, w, k, UNREACHED);
            var news := News(w, w');
            && k'.task == k.task && AttemptFits(max, k') && !k'.pc.Succeeded?
            && "v" in w'.db && w'.db["v"].name == "v"
            && Exact.Budget(max, k') < Exact.Budget(max, k)
            && Left(max, k') == (if news.Some? then Left(max, k) - 1 else Left(max, k))
            && (news.Some? ==> news.value.name == "v")
            && if k'.pc.Done? then news.Some? && Terminal(news.value.state)
               else w'.db["v"].state == StuckState(k') && (news.Some? ==> !Terminal(news.value.state))
  {
  }

  lemma TickStaysHopeless(max: nat, s: Sys)
    requires Hopeless(max, s) && !s.core.workers[1].pc.Done?
    ensures Possible(s, Protocol(Advance(1, UNREACHED)))
    ensures var s' := Act(max, s, Protocol(Advance(1, UNREACHED)));
            Hopeless(max, s') && Exact.Budget(max, s'.core.workers[1]) < Exact.Budget(max, s.core.workers[1])
  {
    Tick(max, s.core.world, s.core.workers[1]);
    var (w', k') := Work(max, s.core.world, s.core.workers[1], UNREACHED);
    var news := News(s.core.world, w');
    var sent := s.clients[0].chan.sent;
    if news.Some? {
      UpToTerminalAppend(sent, news.value);
    }
    assert Act(max, s, Protocol(Advance(1, UNREACHED))).clients == [Hear(s.clients[0], news)];
  }

  lemma {:induction false} FailForGood(max: nat, actions: seq<Action>) returns (all: seq<Action>)
    requires IsSession(max, Fresh(EMPTY), actions) && HonestSession(actions)
    requires Hopeless(max, Session(max, Fresh(EMPTY), actions))
    ensures IsSession(max, Fresh(EMPTY), all) && HonestSession(all) && Hopeless(max, Session(max, Fresh(EMPTY), all))
    ensures Session(max, Fresh(EMPTY), all).core.workers[1].pc.Done?
    decreases Exact.Budget(max, Session(max, Fresh(EMPTY), actions).core.workers[1])
  {
    var s := Session(max, Fresh(EMPTY), actions);
    if s.core.workers[1].pc.Done? {
      all := actions;
    } else {
      var a := Protocol(Advance(1, UNREACHED));
      TickStaysHopeless(max, s);
      SessionExtends(max, Fresh(EMPTY), actions, a);
      all := FailForGood(max, actions + [a]);
    }
  }

  ghost predicate IsSuch(max: nat, actions: seq<Action>) {
    IsSession(max, Fresh(EMPTY), actions) && HonestSession(actions)
  }

  /** One stage of the last worker, of which only the world and the worker matter. */
  lemma Advances(max: nat, actions: seq<Action>) returns (all: seq<Action>)
    requires IsSuch(max, actions)
    requires var c := Session(max, Fresh(EMPTY), actions).core;
             |c.workers| > 0 && !c.cancelled && !c.workers[|c.workers| - 1].pc.Done?
    ensures IsSuch(max, all)
    ensures var s, s' := Session(max, Fresh(EMPTY), actions), Session(max, Fresh(EMPTY), all);
            var i := |s.core.workers| - 1;
            var (w, k) := Work(max, s.core.world, s.core.workers[i], SERVED);
            && s'.core == s.core.(world := w, workers := s.core.workers[i := k])
            && |s'.clients| == |s.clients|
            && forall m | 0 <= m < |s.clients| :: s'.clients[m] == Hear(s.clients[m], News(s.core.world, w))
  {
    all := Extend(max, actions, Protocol(Advance(|Session(max, Fresh(EMPTY), actions).core.workers| - 1, SERVED)));
  }

  /** Create "v". */
  lemma PrepareCreating(max: nat) returns (actions: seq<Action>)
    requires max >= 1
    ensures IsSuch(max, actions)
    ensures var s := Session(max, Fresh(EMPTY), actions);
            && s.core.world.db == map["v" := Volume("id", "v", 5, Creating, "mock", "")]
            && s.core.world.backend == map[] && !s.core.cancelled && s.clients == []
            && s.core.workers == [Start(Task("v", CreateOp, 5, ""))]
  {
    actions := [];
    assert IsSuch(max, actions) && Session(max, Fresh(EMPTY), actions) == Fresh(EMPTY);
    hide IsSession, Session;
    actions := Extend(max, actions, Protocol(Create("v", 5, "id", "mock", NO_FAULTS)));
  }

  /** The backend has created it, and its worker has yet to say so. */
  lemma PrepareCreated(max: nat) returns (actions: seq<Action>)
    requires max >= 1
    ensures IsSuch(max, actions)
    ensures var s := Session(max, Fresh(EMPTY), actions);
            && s.core.world.db == map["v" := Volume("id", "v", 5, Creating, "mock", "")]
            && s.core.world.backend == map["v" := Volume("b", "v", 5, Available, "mock", "")]
            && s.core.workers == [Worker(Task("v", CreateOp, 5, ""), Succeeded, 1)]
            && !s.core.cancelled && s.clients == []
  {
    actions := PrepareCreating(max);
    hide IsSuch, Session;
    actions := Advances(max, actions);
    actions := Advances(max, actions);
  }

  /** And let it become available. */
  lemma PrepareAvailable(max: nat) returns (actions: seq<Action>)
    requires max >= 1
    ensures IsSuch(max, actions)
    ensures var s := Session(max, Fresh(EMPTY), actions);
            && s.core.world.db == map["v" := Volume("id", "v", 5, Available, "mock", "")]
            && s.core.world.backend == map["v" := Volume("b", "v", 5, Available, "mock", "")]
            && |s.core.workers| == 1 && !s.core.cancelled && s.clients == []
  {
    actions := PrepareCreated(max);
    hide IsSuch, Session;
    actions := Advances(max, actions);
  }

  /** Subscribe to it, and request an attach. */
  lemma Prepare(max: nat) returns (actions: seq<Action>)
    requires max >= 1
    ensures IsSuch(max, actions) && Hopeless(max, Session(max, Fresh(EMPTY), actions))
  {
    actions := PrepareAvailable(max);
    hide IsSession, Session;
    actions := Extend(max, actions, Open("v"));
    actions := Extend(max, actions, Protocol(Attach("v", "n", NO_FAULTS)));
  }

  lemma Extend(max: nat, actions: seq<Action>, a: Action) returns (longer: seq<Action>)
    requires IsSession(max, Fresh(EMPTY), actions) && HonestSession(actions)
    requires Possible(Session(max, Fresh(EMPTY), actions), a) && (a.Protocol? ==> Honest(a.step))
    ensures IsSession(max, Fresh(EMPTY), longer) && HonestSession(longer)
    ensures Session(max, Fresh(EMPTY), longer) == Act(max, Session(max, Fresh(EMPTY), actions), a)
  {
    SessionExtends(max, Fresh(EMPTY), actions, a);
    longer := actions + [a];
  }

  /**
   Exactly when the closing event is safe: no client of an honest session ever loses anything
   up to its closing event if and only if there are at most seven attempts.
   */
  lemma ClosingEventIsSafeExactlyUpToSeven(max: nat)
    requires max >= 1
    ensures max <= 7 <==>
      forall actions, k |
        && IsSession(max, Fresh(EMPTY), actions) && HonestSession(actions)
        && 0 <= k < |Session(max, Fresh(EMPTY), actions).clients|
        && IsOpen(Session(max, Fresh(EMPTY), actions).clients[k]) ::
          var chan := Session(max, Fresh(EMPTY), actions).clients[k].chan;
          UpToTerminal(chan.sent) <= Through(chan)
  {
    if max <= 7 {
      EmptyInv(max);
      forall actions, k |
        && IsSession(max, Fresh(EMPTY), actions) && HonestSession(actions)
        && 0 <= k < |Session(max, Fresh(EMPTY), actions).clients|
        && IsOpen(Session(max, Fresh(EMPTY), actions).clients[k])
        ensures var chan := Session(max, Fresh(EMPTY), actions).clients[k].chan;
                UpToTerminal(chan.sent) <= Through(chan)
      {
        ClosingEventGetsThrough(max, EMPTY, actions, k);
      }
    } else {
      var actions := Prepare(max);
      actions := FailForGood(max, actions);
      var chan := Session(max, Fresh(EMPTY), actions).clients[0].chan;
      assert |Through(chan)| <= CAPACITY < |chan.sent|;
    }
  }

  // ----- Updates that take effect while they are reported as failed -----

  lemma Further(max: nat, actions: seq<Action>, a: Action) returns (longer: seq<Action>)
    requires IsSession(max, Fresh(EMPTY), actions) && Possible(Session(max, Fresh(EMPTY), actions), a)
    ensures IsSession(max, Fresh(EMPTY), longer)
    ensures Session(max, Fresh(EMPTY), longer) == Act(max, Session(max, Fresh(EMPTY), actions), a)
  {
    SessionExtends(max, Fresh(EMPTY), actions, a);
    longer := actions + [a];
  }

  /** Both stores hold volume "v" and nothing else. */
  predicate Both(w: World, state: State, held: State, node: string, heldNode: string) {
    && w.db == map["v" := Volume("id", "v", 5, state, "mock", node)]
    && w.backend == map["v" := Volume("b", "v", 5, held, "mock", heldNode)]
  }

  /** The one client has received nothing of what it was sent, none of which is terminal. */
  ghost predicate Unheard(s: Sys, n: nat) {
    && !s.core.cancelled && |s.clients| == 1
    && var cl := s.clients[0];
       && cl.name == "v" && cl.phase.Subscribed? && cl.chan.taken == []
       && |cl.chan.sent| == n && !HasTerminal(cl.chan.sent)
       && |cl.chan.queue| == (if n < CAPACITY then n else CAPACITY) && !HasTerminal(cl.chan.queue)
  }

  lemma HearsOneMore(s: Sys, n: nat, core: Core, news: Option<StateEvent>)
    requires Unheard(s, n) && !core.cancelled && (news.Some? ==> news.value.name == "v" && !Terminal(news.value.state))
    ensures Unheard(Sys(core, [Hear(s.clients[0], news)]), if news.Some? then n + 1 else n)
  {
    if news.Some? {
      UpToTerminalAppend(s.clients[0].chan.sent, news.value);
      UpToTerminalAppend(s.clients[0].chan.queue, news.value);
    }
  }

  /** A step of the protocol that publishes nothing terminal. */
  lemma Muted(max: nat, actions: seq<Action>, n: nat, step: Step) returns (longer: seq<Action>)
    requires IsSession(max, Fresh(EMPTY), actions)
    requires var s := Session(max, Fresh(EMPTY), actions);
             && Unheard(s, n) && Enabled(s.core, step) && !step.Cancel?
             && var news := News(s.core.world, Next(max, s.core, step).world);
                news.Some? ==> news.value.name == "v" && !Terminal(news.value.state)
    ensures IsSession(max, Fresh(EMPTY), longer)
    ensures var s, s' := Session(max, Fresh(EMPTY), actions), Session(max, Fresh(EMPTY), longer);
            && s'.core == Next(max, s.core, step)
            && Unheard(s', if News(s.core.world, s'.core.world).Some? then n + 1 else n)
  {
    var s := Session(max, Fresh(EMPTY), actions);
    longer := Further(max, actions, Protocol(step));
    HearsOneMore(s, n, Next(max, s.core, step), News(s.core.world, Next(max, s.core, step).world));
    assert Session(max, Fresh(EMPTY), longer).clients
        == [Hear(s.clients[0], News(s.core.world, Next(max, s.core, step).world))];
  }

  function NodeIf(attached: bool): string {
    if attached then "n" else ""
  }

  function StateIf(attached: bool): State {
    if attached then Attached else Available
  }

  function OperationTo(attached: bool): Kind {
    if attached then AttachOp else DetachOp
  }

  function RequestTo(attached: bool): Step {
    if attached then Attach("v", "n", NO_FAULTS) else Release("v", DetachOp, NO_FAULTS)
  }

  const SILENT := Choice(false, Truthful, "b", NO_FAULTS.(update := Unacknowledged))

  /** Where the volume is in the two stores, and its worker. */
  predicate Amid(c: Core, state: State, held: State, heldNode: string, k: Worker) {
    Both(c.world, state, held, "n", heldNode) && |c.workers| > 0 && c.workers[|c.workers| - 1] == k
  }

  function WorkerTo(attached: bool, pc: Pc): Worker {
    Worker(Task("v", OperationTo(attached), 5, NodeIf(attached)), pc, 1)
  }

  /** An attach, or a detach, is requested. */
  lemma Requested(max: nat, actions: seq<Action>, n: nat, attached: bool) returns (longer: seq<Action>)
    requires IsSession(max, Fresh(EMPTY), actions)
    requires var s := Session(max, Fresh(EMPTY), actions);
             && Unheard(s, n)
             && Both(s.core.world, StateIf(!attached), StateIf(!attached), NodeIf(!attached), NodeIf(!attached))
    ensures IsSession(max, Fresh(EMPTY), longer)
    ensures var s, kind := Session(max, Fresh(EMPTY), longer), OperationTo(attached);
            && Unheard(s, n + 1)
            && Amid(s.core, Busy(kind), StateIf(!attached), NodeIf(!attached), WorkerTo(attached, Check))
  {
    RequestIsTold(max, Session(max, Fresh(EMPTY), actions).core, attached);
    hide IsSession, Session, Unheard, Next;
    longer := Muted(max, actions, n, RequestTo(attached));
  }

  lemma RequestIsTold(max: nat, c: Core, attached: bool)
    requires Both(c.world, StateIf(!attached), StateIf(!attached), NodeIf(!attached), NodeIf(!attached))
    ensures Enabled(c, RequestTo(attached))
    ensures var c', kind := Next(max, c, RequestTo(attached)), OperationTo(attached);
            && News(c.world, c'.world) == Some(StateEvent("v", Busy(kind), Request(kind))) && !Terminal(Busy(kind))
            && Amid(c', Busy(kind), StateIf(!attached), NodeIf(!attached), WorkerTo(attached, Check))
  {
  }

  /** And the backend has done it. */
  lemma OnTheBackend(max: nat, actions: seq<Action>, n: nat, attached: bool) returns (longer: seq<Action>)
    requires IsSession(max, Fresh(EMPTY), actions)
    requires var s := Session(max, Fresh(EMPTY), actions);
             && Unheard(s, n)
             && Both(s.core.world, StateIf(!attached), StateIf(!attached), NodeIf(!attached), NodeIf(!attached))
    ensures IsSession(max, Fresh(EMPTY), longer)
    ensures var s, kind := Session(max, Fresh(EMPTY), longer), OperationTo(attached);
            && Unheard(s, n + 1)
            && Amid(s.core, Busy(kind), StateIf(attached), NodeIf(attached), WorkerTo(attached, Succeeded))
  {
    longer := Requested(max, actions, n, attached);
    longer := QuietStage(max, longer, n + 1, attached, Check);
    longer := QuietStage(max, longer, n + 1, attached, Calling);
  }

  /** One stage on the way, of which nobody hears. */
  lemma QuietStage(max: nat, actions: seq<Action>, n: nat, attached: bool, pc: Pc) returns (longer: seq<Action>)
    requires IsSession(max, Fresh(EMPTY), actions) && (pc.Check? || pc.Calling?)
    requires var s, kind := Session(max, Fresh(EMPTY), actions), OperationTo(attached);
             Unheard(s, n) && Amid(s.core, Busy(kind), StateIf(!attached), NodeIf(!attached), WorkerTo(attached, pc))
    ensures IsSession(max, Fresh(EMPTY), longer)
    ensures var s, kind := Session(max, Fresh(EMPTY), longer), OperationTo(attached);
            && Unheard(s, n)
            && if pc.Check? then
                 Amid(s.core, Busy(kind), StateIf(!attached), NodeIf(!attached), WorkerTo(attached, Calling))
               else Amid(s.core, Busy(kind), StateIf(attached), NodeIf(attached), WorkerTo(attached, Succeeded))
  {
    hide IsSession, Session;
    var c := Session(max, Fresh(EMPTY), actions).core;
    assert !c.cancelled;
    hide Unheard;
    longer := Muted(max, actions, n, Advance(|c.workers| - 1, SERVED));
  }

  lemma LastIsSilent(max: nat, c: Core, attached: bool)
    requires Amid(c, Busy(OperationTo(attached)), StateIf(attached), NodeIf(attached), WorkerTo(attached, Succeeded))
    requires !c.cancelled
    ensures Enabled(c, Advance(|c.workers| - 1, SILENT))
    ensures var w' := Next(max, c, Advance(|c.workers| - 1, SILENT)).world;
            && News(c.world, w').None?
            && Both(w', StateIf(attached), StateIf(attached), NodeIf(attached), NodeIf(attached))
  {
  }

  /** And the record says so, but the event is not published. */
  lemma SilentOperation(max: nat, actions: seq<Action>, n: nat, attached: bool) returns (longer: seq<Action>)
    requires IsSession(max, Fresh(EMPTY), actions)
    requires var s := Session(max, Fresh(EMPTY), actions);
             && Unheard(s, n)
             && Both(s.core.world, StateIf(!attached), StateIf(!attached), NodeIf(!attached), NodeIf(!attached))
    ensures IsSession(max, Fresh(EMPTY), longer)
    ensures var s := Session(max, Fresh(EMPTY), longer);
            && Unheard(s, n + 1)
            && Both(s.core.world, StateIf(attached), StateIf(attached), NodeIf(attached), NodeIf(attached))
  {
    longer := OnTheBackend(max, actions, n, attached);
    hide IsSession, Session;
    var c := Session(max, Fresh(EMPTY), longer).core;
    LastIsSilent(max, c, attached);
    hide Unheard, Next, News, Both, Amid;
    longer := Muted(max, longer, n + 1, Advance(|c.workers| - 1, SILENT));
  }

  lemma {:induction false} SilentOperations(max: nat, actions: seq<Action>, n: nat, attached: bool)
    returns (longer: seq<Action>)
    requires IsSession(max, Fresh(EMPTY), actions)
    requires var s := Session(max, Fresh(EMPTY), actions);
             && Unheard(s, n)
             && Both(s.core.world, StateIf(attached), StateIf(attached), NodeIf(attached), NodeIf(attached))
    ensures IsSession(max, Fresh(EMPTY), longer)
    ensures var s := Session(max, Fresh(EMPTY), longer);
            && Unheard(s, if n < CAPACITY then CAPACITY else n)
            && exists last :: Both(s.core.world, StateIf(last), StateIf(last), NodeIf(last), NodeIf(last))
    decreases CAPACITY - n
  {
    if n < CAPACITY {
      longer := SilentOperation(max, actions, n, !attached);
      longer := SilentOperations(max, longer, n + 1, !attached);
    } else {
      longer := actions;
    }
  }

  lemma LastIsTold(max: nat, c: Core, attached: bool)
    requires Amid(c, Busy(OperationTo(attached)), StateIf(attached), NodeIf(attached), WorkerTo(attached, Succeeded))
    requires !c.cancelled
    ensures Enabled(c, Advance(|c.workers| - 1, SERVED))
    ensures News(c.world, Next(max, c, Advance(|c.workers| - 1, SERVED)).world)
         == Some(StateEvent("v", StateIf(attached), Success(OperationTo(attached))))
  {
  }

  lemma FullQueueLosesIt(s: Sys, core: Core, e: StateEvent)
    requires Unheard(s, CAPACITY + 1) && e.name == "v" && Terminal(e.state)
    ensures var cl := Hear(s.clients[0], Some(e));
            IsOpen(cl) && HasTerminal(cl.chan.sent) && !HasTerminal(Through(cl.chan))
  {
    UpToTerminalAppend(s.clients[0].chan.sent, e);
    assert Through(s.clients[0].chan) == s.clients[0].chan.queue;
  }

  /**
   With updates that take effect while they are reported as failed there is no such bound: for
   every number of attempts, operations that end unpublished fill a queue that is not read, and
   the closing event of the next operation never gets through.
   */
  lemma SilentUpdatesLoseClosingEvent(max: nat) returns (actions: seq<Action>)
    requires max >= 1
    ensures IsSession(max, Fresh(EMPTY), actions)
    ensures var s := Session(max, Fresh(EMPTY), actions);
            && |s.clients| == 1 && IsOpen(s.clients[0])
            && HasTerminal(s.clients[0].chan.sent) && !HasTerminal(Through(s.clients[0].chan))
  {
    hide IsSession, Session, Both;
    actions := Watched(max);
    actions := SilentOperations(max, actions, 0, false);
    var last :| var w := Session(max, Fresh(EMPTY), actions).core.world;
                Both(w, StateIf(last), StateIf(last), NodeIf(last), NodeIf(last));
    actions := OnTheBackend(max, actions, CAPACITY, !last);
    var s := Session(max, Fresh(EMPTY), actions);
    var step := Advance(|s.core.workers| - 1, SERVED);
    LastIsTold(max, s.core, !last);
    hide Next, News, Amid, Hear, Through;
    FullQueueLosesIt(s, Next(max, s.core, step), News(s.core.world, Next(max, s.core, step).world).value);
    actions := Further(max, actions, Protocol(step));
  }

  /** The volume is available, and the client has subscribed. */
  lemma Watched(max: nat) returns (actions: seq<Action>)
    requires max >= 1
    ensures IsSession(max, Fresh(EMPTY), actions)
    ensures var s := Session(max, Fresh(EMPTY), actions);
            Unheard(s, 0) && Both(s.core.world, StateIf(false), StateIf(false), NodeIf(false), NodeIf(false))
  {
    actions := PrepareAvailable(max);
    hide IsSession, Session;
    actions := Extend(max, actions, Open("v"));
  }
}
