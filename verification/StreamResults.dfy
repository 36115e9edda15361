/**
 More about streams: what they have to do with the audit log, which of them close on a stale
 event, and that they end.
 */
module StreamResults {
  import opened Storage
  import opened Fsm
  import opened Lifecycle
  import opened Engine
  import opened Filing
  import opened Agreement
  import opened Audit
  import opened Channel
  import opened Feed
  import opened Streams
  import opened SlowSubscriber
  import Exact

  // ----- The feed and the audit log -----

  /** What the audit log says was published about a volume from position `since` on. */
  function Heard(log: seq<Entry>, since: nat, id: string, name: string): seq<StateEvent> {
    if |log| <= since then []
    else
      var e := log[|log| - 1];
      Heard(log[..|log| - 1], since, id, name) + if e.volumeID == id then Announcement(name, e) else []
  }

  lemma HeardAppend(log: seq<Entry>, e: Entry, since: nat, id: string, name: string)
    requires since <= |log|
    ensures Heard(log + [e], since, id, name) ==
            Heard(log, since, id, name) + if e.volumeID == id then Announcement(name, e) else []
  {
    assert (log + [e])[..|log|] == log;
  }

  ghost predicate CleanSession(actions: seq<Action>) {
    forall a <- actions :: a.Protocol? ==> Clean(a.step)
  }

  /** What was published since a client subscribed, and since its snapshot, is what the log has recorded since. */
  ghost predicate Logged(w: World, cl: Client) {
    && cl.since <= cl.seen <= |w.feed| && cl.joined <= cl.looked <= |w.log|
    && cl.name in w.db
    && Published(w.feed, cl.since, cl.name) == Heard(w.log, cl.joined, w.db[cl.name].id, cl.name)
    && Published(w.feed, cl.seen, cl.name) == Heard(w.log, cl.looked, w.db[cl.name].id, cl.name)
  }

  ghost predicate SessionLogged(s: Sys) {
    Filed(s.core) && forall k | 0 <= k < |s.clients| :: Logged(s.core.world, s.clients[k])
  }

  /** One entry, one announcement: what a clean step adds to the log and to the feed tells the same. */
  lemma EffectStaysLogged(w: World, w': World, subject: string, cl: Client)
    requires Effect(w, w', subject) && Logged(w, cl)
    requires cl.name in w'.db && w'.db[cl.name].id == w.db[cl.name].id
    requires subject in w'.db && subject != cl.name ==> w'.db[subject].id != w'.db[cl.name].id
    ensures Logged(w', cl)
  {
    if w'.log != w.log {
      var e := w'.log[|w.log|];
      HeardAppend(w.log, e, cl.joined, w.db[cl.name].id, cl.name);
      HeardAppend(w.log, e, cl.looked, w.db[cl.name].id, cl.name);
      assert Recorded(w, w', subject, e);
      if e.cause.Applied? {
        var news := StateEvent(subject, e.toState, e.cause.event);
        assert w'.feed == w.feed + [news];
        PublishedAppend(w.feed, news, cl.since, cl.name);
        PublishedAppend(w.feed, news, cl.seen, cl.name);
      } else {
        assert w'.feed == w.feed;
      }
    }
  }

  lemma ActionStaysLogged(max: nat, s: Sys, a: Action)
    requires SessionLogged(s) && Possible(s, a) && (a.Protocol? ==> Clean(a.step))
    ensures SessionLogged(Act(max, s, a))
  {
    if a.Protocol? {
      var c, c' := s.core, Next(max, s.core, a.step);
      StepKeepsFiled(max, c, a.step);
      forall k | 0 <= k < |s.clients| ensures Logged(c'.world, Hear(s.clients[k], News(c.world, c'.world))) {
        if !a.step.Cancel? {
          StepEffect(max, c, a.step);
          StepIsLocal(max, c, a.step);
          IdStays(max, c, a.step);
          EffectStaysLogged(c.world, c'.world, Subject(c, a.step), s.clients[k]);
        }
      }
    }
  }

  lemma {:induction false} SessionStaysLogged(max: nat, s: Sys, actions: seq<Action>)
    requires SessionLogged(s) && IsSession(max, s, actions) && CleanSession(actions)
    ensures SessionLogged(Session(max, s, actions))
    decreases |actions|
  {
    if actions != [] {
      ActionStaysLogged(max, s, actions[0]);
      SessionStaysLogged(max, Act(max, s, actions[0]), actions[1..]);
    }
  }

  /** When every entry is saved, what a client was sent is exactly what the log records from its subscription on. */
  lemma StreamTellsLog(max: nat, c: Core, actions: seq<Action>, k: nat)
    requires Filed(c) && IsSession(max, Fresh(c), actions) && CleanSession(actions)
    requires k < |Session(max, Fresh(c), actions).clients|
    ensures var s := Session(max, Fresh(c), actions);
            var w, cl := s.core.world, s.clients[k];
            && Logged(w, cl)
            && (IsOpen(cl) ==> cl.chan.sent == Heard(w.log, cl.joined, w.db[cl.name].id, cl.name))
  {
    SessionStaysLogged(max, Fresh(c), actions);
    SessionKeepsClients(max, Fresh(c), actions);
  }

  // ----- Stale closing events -----

  lemma {:induction false} UpToTerminalSplits(a: seq<StateEvent>, b: seq<StateEvent>)
    ensures HasTerminal(a + b) <==> HasTerminal(a) || HasTerminal(b)
    ensures UpToTerminal(a + b) == if HasTerminal(a) then UpToTerminal(a) else a + UpToTerminal(b)
    decreases |b|
  {
    if b == [] {
      assert a + b == a;
      UpToTerminalIsPrefix(a);
    } else {
      var front, last := b[..|b| - 1], b[|b| - 1];
      assert b == front + [last] && a + b == (a + front) + [last];
      UpToTerminalSplits(a, front);
      UpToTerminalAppend(a + front, last);
      UpToTerminalAppend(front, last);
    }
  }

  /**
   Which streams end too early.  A finished stream whose snapshot was not terminal delivers what
   came after the snapshot, up to the first terminal event among it, exactly when no terminal
   event was published between its subscription and its snapshot; otherwise that one closes
   the stream, and nothing that came after the snapshot is delivered.
   */
  lemma StreamReachesPastSnapshotExactlyWhen(max: nat, c: Core, actions: seq<Action>, k: nat)
    requires Filed(c) && IsSession(max, Fresh(c), actions)
    requires k < |Session(max, Fresh(c), actions).clients|
    requires Spared(max, c, actions, Session(max, Fresh(c), actions).clients[k].chan)
    requires var cl := Session(max, Fresh(c), actions).clients[k]; cl.phase.Finished? && !SnapshotEnds(cl)
    ensures var s := Session(max, Fresh(c), actions);
            var cl, feed := s.clients[k], s.core.world.feed;
            && cl.since <= cl.seen <= |feed|
            && var early, later := Published(feed[..cl.seen], cl.since, cl.name), Published(feed, cl.seen, cl.name);
               && (|cl.chan.taken| > |early| <==> !HasTerminal(early))
               && (!HasTerminal(early) ==> HasTerminal(later) && cl.chan.taken == early + UpToTerminal(later))
               && (HasTerminal(early) ==> cl.chan.taken == UpToTerminal(early))
  {
    SessionKeepsClients(max, Fresh(c), actions);
    var s := Session(max, Fresh(c), actions);
    var cl, feed := s.clients[k], s.core.world.feed;
    assert ClientOk(s.core.world, cl);
    if cl.chan.lost != 0 {
      SessionKeeps(max, Fresh(c), actions);
      assert BoundOk(max, s.core, cl);
    }
    PublishedSplits(feed, cl.since, cl.seen, cl.name);
    var early, later := Published(feed[..cl.seen], cl.since, cl.name), Published(feed, cl.seen, cl.name);
    UpToTerminalSplits(early, later);
    UpToTerminalIsPrefix(early);
    UpToTerminalIsPrefix(later);
    if !HasTerminal(early) {
      assert UpToTerminal(later) != [];
    }
  }

  /** Volume "v" is in these states in the two stores, and a worker that is not cancelled is about to begin. */
  ghost predicate AboutToBegin(s: Sys, state: State, held: State, node: string, kind: Kind) {
    && s.core.world.db == map["v" := Volume("id", "v", 5, state, "mock", "n")]
    && s.core.world.backend == map["v" := Volume("b", "v", 5, held, "mock", node)]
    && |s.core.workers| > 0 && !s.core.cancelled
    && s.core.workers[|s.core.workers| - 1] == Start(Task("v", kind, 5, if kind.AttachOp? then "n" else ""))
  }

  /** The three stages in which a worker succeeds. */
  lemma Succeeds(max: nat, actions: seq<Action>, state: State, held: State, node: string, kind: Kind)
    returns (all: seq<Action>)
    requires IsSuch(max, actions) && AboutToBegin(Session(max, Fresh(EMPTY), actions), state, held, node, kind)
    requires (kind.AttachOp? && state == Attaching && held == Available)
             || (kind.DetachOp? && state == Detaching && held == Attached)
    ensures IsSuch(max, all)
    ensures var s, s' := Session(max, Fresh(EMPTY), actions), Session(max, Fresh(EMPTY), all);
            var e := StateEvent("v", Target(kind), Success(kind));
            var node' := if kind.AttachOp? then "n" else "";
            && s'.core.world.db == map["v" := Volume("id", "v", 5, Target(kind), "mock", node')]
            && s'.core.world.backend == map["v" := Volume("b", "v", 5, Target(kind), "mock", node')]
            && s'.core.world.feed == s.core.world.feed + [e]
            && !s'.core.cancelled
            && |s'.clients| == |s.clients|
            && forall k | 0 <= k < |s.clients| :: s'.clients[k] == Hear(s.clients[k], Some(e))
  {
    hide IsSuch, Session;
    all := Advances(max, actions);
    all := Advances(max, all);
    all := Advances(max, all);
  }

  /** Subscribe while the volume is being attached; then it is attached, and a detach is accepted. */
  lemma PrepareStale(max: nat) returns (actions: seq<Action>)
    requires max >= 1
    ensures IsSuch(max, actions)
    ensures var s := Session(max, Fresh(EMPTY), actions);
            && AboutToBegin(s, Detaching, Attached, "n", DetachOp)
            && |s.clients| == 1
            && var cl := s.clients[0];
               && cl.name == "v" && cl.phase.Subscribed? && cl.frames == [] && cl.snapshot.None?
               && cl.chan.queue == [StateEvent("v", Attached, EventAttached), StateEvent("v", Detaching, EventDetach)]
  {
    actions := PrepareAttached(max);
    hide IsSession, Session;
    DetachIsTold(max, Session(max, Fresh(EMPTY), actions).core);
    hide Next, News;
    actions := Extend(max, actions, Protocol(Release("v", DetachOp, NO_FAULTS)));
  }

  lemma DetachIsTold(max: nat, c: Core)
    requires c.world.db == map["v" := Volume("id", "v", 5, Attached, "mock", "n")]
    ensures var step := Release("v", DetachOp, NO_FAULTS);
            && Enabled(c, step)
            && var c' := Next(max, c, step);
               && c'.world.db == map["v" := Volume("id", "v", 5, Detaching, "mock", "n")]
               && c'.world.backend == c.world.backend && c'.cancelled == c.cancelled
               && c'.workers == c.workers + [Start(Task("v", DetachOp, 5, ""))]
               && News(c.world, c'.world) == Some(StateEvent("v", Detaching, EventDetach))
  {
  }

  lemma PrepareAttached(max: nat) returns (actions: seq<Action>)
    requires max >= 1
    ensures IsSuch(max, actions)
    ensures var s := Session(max, Fresh(EMPTY), actions);
            && s.core.world.db == map["v" := Volume("id", "v", 5, Attached, "mock", "n")]
            && s.core.world.backend == map["v" := Volume("b", "v", 5, Attached, "mock", "n")]
            && !s.core.cancelled && |s.clients| == 1
            && var cl := s.clients[0];
               && cl.name == "v" && cl.phase.Subscribed? && cl.frames == [] && cl.snapshot.None?
               && cl.chan.queue == [StateEvent("v", Attached, EventAttached)]
  {
    actions := PrepareAttaching(max);
    hide IsSession, Session;
    actions := Succeeds(max, actions, Attaching, Available, "", AttachOp);
  }

  lemma PrepareAttaching(max: nat) returns (actions: seq<Action>)
    requires max >= 1
    ensures IsSuch(max, actions)
    ensures var s := Session(max, Fresh(EMPTY), actions);
            AboutToBegin(s, Attaching, Available, "", AttachOp) && s.clients == [Subscriber("v", s.core.world)]
  {
    actions := PrepareAvailable(max);
    hide IsSession, Session;
    actions := Extend(max, actions, Protocol(Attach("v", "n", NO_FAULTS)));
    actions := Extend(max, actions, Open("v"));
  }

  /**
   Such a stream: the client subscribes while the volume is being attached; it becomes attached,
   and a detach is accepted; the snapshot finds it detaching; and the stream closes on
   "attached".  That the volume then becomes available is not delivered.
   */
  lemma StaleEventClosesStream(max: nat) returns (actions: seq<Action>)
    requires max >= 1
    ensures IsSession(max, Fresh(EMPTY), actions) && HonestSession(actions)
    ensures var s := Session(max, Fresh(EMPTY), actions);
            && |s.clients| == 1
            && var cl := s.clients[0];
               var stale := AsMessage(StateEvent("v", Attached, EventAttached));
               && cl.phase.Finished?
               && cl.frames == [Data(Message("v", Detaching, None)), Data(stale), Finish(stale)]
               && Published(s.core.world.feed, cl.seen, "v") == [StateEvent("v", Available, EventDetached)]
               && "v" in s.core.world.db && s.core.world.db["v"].state == Available
  {
    actions := PrepareStale(max);
    actions := Extend(max, actions, Snapshot(0, true, 2));
    actions := Extend(max, actions, Receive(0, 2));
    var s := Session(max, Fresh(EMPTY), actions);
    var e := StateEvent("v", Available, EventDetached);
    PublishedAppend(s.core.world.feed, e, |s.core.world.feed|, "v");
    actions := Succeeds(max, actions, Detaching, Attached, "n", DetachOp);
  }

  // ----- Streams end -----

  /** While nothing terminal was published since a transitional snapshot, the volume is still transitional. */
  ghost predicate Awaits(w: World, cl: Client) {
    && cl.seen <= |w.feed|
    && (cl.snapshot.Some? && IsTransitional(cl.snapshot.value.state)
        && !HasTerminal(Published(w.feed, cl.seen, cl.name)) ==>
          cl.name in w.db && IsTransitional(w.db[cl.name].state))
  }

  lemma ReconcileNeedsError(w: World, name: string, reachable: bool, f: Faults)
    requires name in w.db && w.db[name].state != Error
    ensures Lifecycle.ReconcileVolume(w, name, reachable, f).world == w
  {
  }

  /** A transitional volume stays so until a terminal event is published. */
  lemma TransitionalUntilTerminal(max: nat, c: Core, step: Step, name: string)
    requires Filed(c) && Enabled(c, step) && Honest(step) && !step.Cancel?
    requires name in c.world.db && IsTransitional(c.world.db[name].state)
    ensures var w' := Next(max, c, step).world;
            && name in w'.db
            && (IsTransitional(w'.db[name].state) ||
                (Subject(c, step) == name && News(c.world, w').Some? && Terminal(News(c.world, w').value.state)))
  {
    StepIsLocal(max, c, step);
    IdStays(max, c, step);
    StepTells(max, c, step);
    MovesSilentlyExactlyWhen(max, c, step);
    if step.Reconcile? && step.name == name {
      ReconcileNeedsError(c.world, name, step.reachable, step.faults);
    }
  }

  ghost predicate AllAwait(s: Sys) {
    Filed(s.core) && forall k | 0 <= k < |s.clients| :: Awaits(s.core.world, s.clients[k])
  }

  lemma ProtocolStaysAwaiting(max: nat, c: Core, step: Step, cl: Client)
    requires Filed(c) && Enabled(c, step) && Honest(step) && Awaits(c.world, cl)
    ensures Awaits(Next(max, c, step).world, Hear(cl, News(c.world, Next(max, c, step).world)))
  {
    if !step.Cancel? {
      var w, w' := c.world, Next(max, c, step).world;
      StepTells(max, c, step);
      var heard := Published(w.feed, cl.seen, cl.name);
      if News(w, w').Some? {
        var e := News(w, w').value;
        PublishedAppend(w.feed, e, cl.seen, cl.name);
        UpToTerminalAppend(heard, e);
      }
      if cl.name in w.db && IsTransitional(w.db[cl.name].state) {
        TransitionalUntilTerminal(max, c, step, cl.name);
      }
    }
  }

  lemma ActionStaysAwaiting(max: nat, s: Sys, a: Action)
    requires AllAwait(s) && Possible(s, a) && (a.Protocol? ==> Honest(a.step))
    requires forall k | 0 <= k < |s.clients| :: s.clients[k].phase.Subscribed? ==> s.clients[k].snapshot.None?
    ensures AllAwait(Act(max, s, a))
  {
    match a
    case Protocol(step) =>
      StepKeepsFiled(max, s.core, step);
      forall k | 0 <= k < |s.clients|
        ensures Awaits(Next(max, s.core, step).world,
                       Hear(s.clients[k], News(s.core.world, Next(max, s.core, step).world)))
      {
        ProtocolStaysAwaiting(max, s.core, step, s.clients[k]);
      }
    case _ =>
  }

  lemma {:induction false} SessionStaysAwaiting(max: nat, s: Sys, actions: seq<Action>)
    requires AllAwait(s) && ClientsOk(s) && IsSession(max, s, actions) && HonestSession(actions)
    ensures AllAwait(Session(max, s, actions))
    decreases |actions|
  {
    if actions != [] {
      ActionStaysAwaiting(max, s, actions[0]);
      ActionKeepsClients(max, s, actions[0]);
      SessionStaysAwaiting(max, Act(max, s, actions[0]), actions[1..]);
    }
  }

  ghost predicate SoundSession(actions: seq<Action>) {
    forall a <- actions :: a.Protocol? ==> Exact.Sound(a.step)
  }

  lemma {:induction false} SessionStaysExact(max: nat, s: Sys, actions: seq<Action>)
    requires max >= 1 && Inv(max, s.core) && Exact.Exactly(s.core) && IsSession(max, s, actions)
    requires SoundSession(actions)
    ensures Inv(max, Session(max, s, actions).core) && Exact.Exactly(Session(max, s, actions).core)
    decreases |actions|
  {
    if actions != [] {
      if actions[0].Protocol? {
        StepKeeps(max, s.core, actions[0].step);
        Exact.StepStaysExact(max, s.core, actions[0].step);
      }
      SessionStaysExact(max, Act(max, s, actions[0]), actions[1..]);
    }
  }

  /**
   Streams end.  Without faults and with at most seven attempts, once the workers have drained,
   a client that wrote a snapshot of a volume which was neither at rest nor pending, and that
   is still reading, has its closing event waiting in its queue.
   */
  lemma StreamsEnd(max: nat, c: Core, actions: seq<Action>, k: nat)
    requires 1 <= max <= 7 && Inv(max, c) && Exact.Exactly(c)
    requires IsSession(max, Fresh(c), actions) && SoundSession(actions)
    requires k < |Session(max, Fresh(c), actions).clients|
    requires forall i :: !Live(Session(max, Fresh(c), actions).core, i)
    requires var cl := Session(max, Fresh(c), actions).clients[k];
             cl.phase.Draining? && cl.snapshot.Some? && cl.snapshot.value.state != Pending
    ensures HasTerminal(Session(max, Fresh(c), actions).clients[k].chan.queue)
  {
    SoundIsHonest(actions);
    SessionKeeps(max, Fresh(c), actions);
    SessionStaysAwaiting(max, Fresh(c), actions);
    SessionStaysExact(max, Fresh(c), actions);
    var s := Session(max, Fresh(c), actions);
    Exact.DrainedMeansSettled(max, s.core);
    hide FramesOk, Inv, Exact.Exactly;
    assert ClientOk(s.core.world, s.clients[k]) && BoundOk(max, s.core, s.clients[k])
           && Awaits(s.core.world, s.clients[k]);
    DrainingIsNotTerminal(s.clients[k]);
    ClosingIsQueued(s.core.world, s.clients[k]);
  }

  lemma DrainingIsNotTerminal(cl: Client)
    requires FramesOk(cl) && cl.phase.Draining?
    ensures !HasTerminal(cl.chan.taken) && !SnapshotEnds(cl)
  {
  }

  lemma ClosingIsQueued(w: World, cl: Client)
    requires Hears(w, cl) && cl.phase.Draining? && UpToTerminal(cl.chan.sent) <= Through(cl.chan)
    requires HasTerminal(Published(w.feed, cl.seen, cl.name)) && !HasTerminal(cl.chan.taken)
    ensures HasTerminal(cl.chan.queue)
  {
    PublishedSplits(w.feed, cl.since, cl.seen, cl.name);
    hide UpToTerminal;
    UpToTerminalSplits(Published(w.feed[..cl.seen], cl.since, cl.name), Published(w.feed, cl.seen, cl.name));
    UpToTerminalIsPrefix(cl.chan.sent);
    PrefixHasSameEnd(UpToTerminal(cl.chan.sent), Through(cl.chan));
    UpToTerminalSplits(cl.chan.taken, cl.chan.queue);
  }

  lemma SoundIsHonest(actions: seq<Action>)
    requires SoundSession(actions)
    ensures HonestSession(actions)
  {
  }
}
