/**
 Event streams over the running system: clients subscribe, take a snapshot and drain
 their queue until a terminal state, while API calls and workers go on.
 */
module Streams {
  import opened Storage
  import opened Fsm
  import opened Lifecycle
  import opened Engine
  import opened Filing
  import opened Agreement
  import opened Channel
  import opened Feed

  /** The payload of a frame; no cause means the snapshot's "current". */
  datatype Message = Message(name: string, state: State, cause: Option<Event>)

  datatype Frame = Data(message: Message) | Finish(message: Message)

  /** What the handler writes for one message: the data, and a closing frame if it is terminal. */
  function Emit(m: Message): seq<Frame> {
    if Terminal(m.state) then [Data(m), Finish(m)] else [Data(m)]
  }

  function AsMessage(e: StateEvent): Message {
    Message(e.name, e.state, Some(e.event))
  }

  datatype Phase = Subscribed | Draining | Finished | Gone

  /**
   `since` is the length of the feed at subscription and `seen` at the snapshot; `joined` and
   `looked` are those of the audit log.  All four are history.
   */
  datatype Client = Client(
    name: string, chan: Chan, phase: Phase, snapshot: Option<Message>, frames: seq<Frame>,
    since: nat, seen: nat, joined: nat, looked: nat)

  function Subscriber(name: string, w: World): Client {
    Client(name, NEW_CHAN, Subscribed, None, [], |w.feed|, |w.feed|, |w.log|, |w.log|)
  }

  predicate IsOpen(cl: Client) {
    cl.phase.Subscribed? || cl.phase.Draining?
  }

  datatype Sys = Sys(core: Core, clients: seq<Client>)

  datatype Action =
    | Protocol(step: Step)
    | Open(name: string)
    | Snapshot(client: nat, works: bool, writes: nat)
    | Receive(client: nat, writes: nat)
    | Leave(client: nat)

  predicate Possible(s: Sys, a: Action) {
    match a
    case Protocol(step) => Enabled(s.core, step)
    case Open(name) => name in s.core.world.db
    case Snapshot(k, _, _) => k < |s.clients| && s.clients[k].phase.Subscribed?
    case Receive(k, _) => k < |s.clients| && s.clients[k].phase.Draining? && s.clients[k].chan.queue != []
    case Leave(k) => k < |s.clients| && IsOpen(s.clients[k])
  }

  function Hear(cl: Client, news: Option<StateEvent>): Client {
    if news.Some? && IsOpen(cl) && cl.name == news.value.name then cl.(chan := Offer(cl.chan, news.value)) else cl
  }

  /** Writes the frames of a message; a failed write ends the stream. */
  function Deliver(cl: Client, m: Message, writes: nat): Client {
    var all := Emit(m);
    if writes < |all| then cl.(phase := Gone, frames := cl.frames + all[..writes])
    else cl.(phase := if Terminal(m.state) then Finished else Draining, frames := cl.frames + all)
  }

  /** Writes the state that was found, if any, and starts to drain. */
  function Greet(cl: Client, found: Option<State>, writes: nat): Client {
    match found
    case None => cl.(phase := Draining)
    case Some(state) =>
      var m := Message(cl.name, state, None);
      Deliver(cl.(snapshot := Some(m)), m, writes)
  }

  function TakeSnapshot(cl: Client, w: World, works: bool, writes: nat): Client {
    var v := Load(w, cl.name, works);
    Greet(cl.(seen := |w.feed|, looked := |w.log|), if v.Some? then Some(v.value.state) else None, writes)
  }

  /** Receives the oldest queued event and writes its frames. */
  function Received(cl: Client, writes: nat): Client
    requires cl.chan.queue != []
  {
    Deliver(cl.(chan := Take(cl.chan)), AsMessage(cl.chan.queue[0]), writes)
  }

  function Act(max: nat, s: Sys, a: Action): Sys
    requires Possible(s, a)
  {
    match a
    case Protocol(step) =>
      var core := Next(max, s.core, step);
      var news := News(s.core.world, core.world);
      Sys(core, seq(|s.clients|, i requires 0 <= i < |s.clients| => Hear(s.clients[i], news)))
    case Open(name) =>
      s.(clients := s.clients + [Subscriber(name, s.core.world)])
    case Snapshot(k, works, writes) =>
      s.(clients := s.clients[k := TakeSnapshot(s.clients[k], s.core.world, works, writes)])
    case Receive(k, writes) =>
      s.(clients := s.clients[k := Received(s.clients[k], writes)])
    case Leave(k) => s.(clients := s.clients[k := s.clients[k].(phase := Gone)])
  }

  ghost predicate IsSession(max: nat, s: Sys, actions: seq<Action>)
    decreases |actions|
  {
    actions == [] || (Possible(s, actions[0]) && IsSession(max, Act(max, s, actions[0]), actions[1..]))
  }

  ghost function Session(max: nat, s: Sys, actions: seq<Action>): Sys
    requires IsSession(max, s, actions)
    decreases |actions|
  {
    if actions == [] then s else Session(max, Act(max, s, actions[0]), actions[1..])
  }

  lemma {:induction false} SessionExtends(max: nat, s: Sys, actions: seq<Action>, a: Action)
    requires IsSession(max, s, actions) && Possible(Session(max, s, actions), a)
    ensures IsSession(max, s, actions + [a])
    ensures Session(max, s, actions + [a]) == Act(max, Session(max, s, actions), a)
    decreases |actions|
  {
    if actions == [] {
      assert [a][1..] == [];
    } else {
      assert (actions + [a])[1..] == actions[1..] + [a];
      SessionExtends(max, Act(max, s, actions[0]), actions[1..], a);
    }
  }

  /** No step of the session is an update that takes effect while its caller is told that it failed. */
  ghost predicate HonestSession(actions: seq<Action>) {
    forall a <- actions :: a.Protocol? ==> Honest(a.step)
  }

  // ----- Sequences of published events -----

  ghost predicate HasTerminal(es: seq<StateEvent>) {
    exists e <- es :: Terminal(e.state)
  }

  /** The events up to and including the first terminal one. */
  ghost function UpToTerminal(es: seq<StateEvent>): seq<StateEvent> {
    if es == [] then []
    else
      var front := es[..|es| - 1];
      if HasTerminal(front) then UpToTerminal(front) else es
  }

  lemma UpToTerminalAppend(es: seq<StateEvent>, e: StateEvent)
    ensures UpToTerminal(es + [e]) == (if HasTerminal(es) then UpToTerminal(es) else es + [e])
    ensures HasTerminal(es + [e]) <==> HasTerminal(es) || Terminal(e.state)
  {
    assert (es + [e])[..|es|] == es;
    if HasTerminal(es) {
      var x :| x in es && Terminal(x.state);
      assert x in es + [e];
    }
    if Terminal(e.state) {
      assert e in es + [e];
    }
  }

  lemma {:induction false} UpToTerminalIsPrefix(es: seq<StateEvent>)
    ensures UpToTerminal(es) <= es
    ensures !HasTerminal(es) ==> UpToTerminal(es) == es
    ensures HasTerminal(es) <==> HasTerminal(UpToTerminal(es))
  {
    if es != [] {
      var front, last := es[..|es| - 1], es[|es| - 1];
      assert es == front + [last];
      UpToTerminalAppend(front, last);
      UpToTerminalIsPrefix(front);
    }
  }

  // ----- What every client hears, whatever fails -----

  /** A subscriber was sent exactly what was published under its name since it subscribed. */
  ghost predicate Hears(w: World, cl: Client) {
    && cl.since <= cl.seen <= |w.feed|
    && ChanOk(cl.chan)
    && (IsOpen(cl) ==> cl.chan.sent == Published(w.feed, cl.since, cl.name))
  }

  // ----- What the handler writes -----

  function EmitAll(es: seq<StateEvent>): seq<Frame> {
    if es == [] then [] else EmitAll(es[..|es| - 1]) + Emit(AsMessage(es[|es| - 1]))
  }

  lemma EmitAllAppend(es: seq<StateEvent>, e: StateEvent)
    ensures EmitAll(es + [e]) == EmitAll(es) + Emit(AsMessage(e))
  {
    assert (es + [e])[..|es|] == es;
  }

  function Head(cl: Client): seq<Frame> {
    if cl.snapshot.Some? then Emit(cl.snapshot.value) else []
  }

  predicate SnapshotEnds(cl: Client) {
    cl.snapshot.Some? && Terminal(cl.snapshot.value.state)
  }

  /** The frames written so far follow from the snapshot and the events received. */
  ghost predicate FramesOk(cl: Client) {
    match cl.phase
    case Subscribed => cl.snapshot.None? && cl.chan.taken == [] && cl.frames == []
    case Draining =>
      && cl.frames == Head(cl) + EmitAll(cl.chan.taken)
      && !HasTerminal(cl.chan.taken) && !SnapshotEnds(cl)
    case Finished =>
      && cl.frames == Head(cl) + EmitAll(cl.chan.taken)
      && UpToTerminal(cl.chan.taken) == cl.chan.taken
      && (if SnapshotEnds(cl) then cl.chan.taken == [] else HasTerminal(cl.chan.taken))
    case Gone => cl.frames <= Head(cl) + EmitAll(cl.chan.taken)
  }

  /**
   A stream that ended on an event, and whose queue dropped nothing, received everything up to the
   first terminal one.
   */
  ghost predicate WholeUnlessDropped(w: World, cl: Client) {
    cl.chan.lost == 0 && cl.phase.Finished? && !SnapshotEnds(cl) ==>
      && HasTerminal(Published(w.feed, cl.since, cl.name))
      && cl.chan.taken == UpToTerminal(Published(w.feed, cl.since, cl.name))
  }

  ghost predicate ClientOk(w: World, cl: Client) {
    FramesOk(cl) && Hears(w, cl) && WholeUnlessDropped(w, cl)
  }

  ghost predicate ClientsOk(s: Sys) {
    Filed(s.core) && forall k | 0 <= k < |s.clients| :: ClientOk(s.core.world, s.clients[k])
  }

  lemma PrefixHasSameEnd(p: seq<StateEvent>, t: seq<StateEvent>)
    requires p <= t && HasTerminal(p)
    ensures HasTerminal(t) && UpToTerminal(p) == UpToTerminal(t)
    decreases |t|
  {
    if p != t {
      var front, last := t[..|t| - 1], t[|t| - 1];
      assert t == front + [last] && p <= front;
      PrefixHasSameEnd(p, front);
      UpToTerminalAppend(front, last);
    }
  }

  lemma {:induction false} SubsequenceTerminals(sub: seq<StateEvent>, all: seq<StateEvent>)
    requires Subsequence(sub, all) && HasTerminal(sub)
    ensures HasTerminal(all)
    decreases |all|
  {
    var front, last := all[..|all| - 1], all[|all| - 1];
    assert all == front + [last];
    UpToTerminalAppend(front, last);
    if sub[|sub| - 1] == last {
      var before := sub[..|sub| - 1];
      assert sub == before + [last];
      UpToTerminalAppend(before, last);
      if HasTerminal(before) {
        SubsequenceTerminals(before, front);
      }
    } else {
      SubsequenceTerminals(sub, front);
    }
  }

  /** Once a client has received a terminal event, it has received exactly what was sent up to the first one. */
  lemma TakenIsEverything(chan: Chan)
    requires ChanOk(chan) && UpToTerminal(chan.sent) <= Through(chan)
    requires HasTerminal(chan.taken) && UpToTerminal(chan.taken) == chan.taken
    ensures HasTerminal(chan.sent) && chan.taken == UpToTerminal(chan.sent)
  {
    PrefixHasSameEnd(chan.taken, Through(chan));
    SubsequenceTerminals(Through(chan), chan.sent);
    UpToTerminalIsPrefix(chan.sent);
    PrefixHasSameEnd(UpToTerminal(chan.sent), Through(chan));
    PrefixHasSameEnd(UpToTerminal(chan.sent), chan.sent);
  }

  /** A receive writes the next event's frames; writes that fail end the stream. */
  lemma ReceiveFrames(cl: Client, writes: nat)
    requires FramesOk(cl) && cl.phase.Draining? && cl.chan.queue != []
    ensures FramesOk(Received(cl, writes))
  {
    var e := cl.chan.queue[0];
    EmitAllAppend(cl.chan.taken, e);
    if writes < |Emit(AsMessage(e))| {
      WritesArePrefix(cl.frames, Emit(AsMessage(e)), writes);
    }
    assert Head(cl) + EmitAll(cl.chan.taken + [e]) == cl.frames + Emit(AsMessage(e));
    EndOfTaken(cl.chan.taken, e);
  }

  lemma WritesArePrefix(before: seq<Frame>, all: seq<Frame>, writes: nat)
    requires writes < |all|
    ensures before + all[..writes] <= before + all
  {
  }

  lemma EndOfTaken(taken: seq<StateEvent>, e: StateEvent)
    requires !HasTerminal(taken)
    ensures UpToTerminal(taken + [e]) == taken + [e]
    ensures HasTerminal(taken + [e]) <==> Terminal(e.state)
  {
    UpToTerminalAppend(taken, e);
  }

  lemma NothingDropped(chan: Chan)
    requires ChanOk(chan) && chan.lost == 0
    ensures UpToTerminal(chan.sent) <= Through(chan)
  {
    UpToTerminalIsPrefix(chan.sent);
    NothingLostIsEverything(chan);
  }

  lemma ReceiveOk(w: World, cl: Client, writes: nat)
    requires ClientOk(w, cl) && cl.phase.Draining? && cl.chan.queue != []
    ensures ClientOk(w, Received(cl, writes))
  {
    ReceiveFrames(cl, writes);
    TakeOk(cl.chan);
    var cl' := Received(cl, writes);
    if cl'.phase.Finished? && cl'.chan.lost == 0 && !SnapshotEnds(cl') {
      NothingDropped(cl'.chan);
      TakenIsEverything(cl'.chan);
    }
  }

  lemma SnapshotOk(w: World, cl: Client, works: bool, writes: nat)
    requires ClientOk(w, cl) && cl.phase.Subscribed?
    ensures ClientOk(w, TakeSnapshot(cl, w, works, writes))
  {
  }

  /** What a step publishes reaches the open clients of that name, and changes no closed one. */
  lemma ProtocolOk(w: World, w': World, name: string, cl: Client)
    requires Tells(w, w', name) && ClientOk(w, cl)
    ensures ClientOk(w', Hear(cl, News(w, w')))
  {
    hide UpToTerminal, EmitAll, Subsequence;
    if News(w, w').Some? {
      var e := News(w, w').value;
      PublishedAppend(w.feed, e, cl.since, cl.name);
      OfferOk(cl.chan, e);
      var heard := Published(w.feed, cl.since, cl.name);
      if HasTerminal(heard) {
        PrefixHasSameEnd(heard, Published(w'.feed, cl.since, cl.name));
      }
    }
  }

  lemma ActionKeepsClients(max: nat, s: Sys, a: Action)
    requires ClientsOk(s) && Possible(s, a)
    ensures ClientsOk(Act(max, s, a))
  {
    match a
    case Protocol(step) =>
      StepKeepsFiled(max, s.core, step);
      var w, w' := s.core.world, Next(max, s.core, step).world;
      assert step.Cancel? ==> Tells(w, w', "");
      if !step.Cancel? {
        StepTells(max, s.core, step);
      }
      forall k | 0 <= k < |s.clients| ensures ClientOk(w', Hear(s.clients[k], News(w, w'))) {
        ProtocolOk(w, w', if step.Cancel? then "" else Subject(s.core, step), s.clients[k]);
      }
    case Open(name) =>
    case Snapshot(k, works, writes) => SnapshotOk(s.core.world, s.clients[k], works, writes);
    case Receive(k, writes) => ReceiveOk(s.core.world, s.clients[k], writes);
    case Leave(k) =>
  }

  /** Whatever fails: frames and queues are sound at every moment of every session. */
  lemma {:induction false} SessionKeepsClients(max: nat, s: Sys, actions: seq<Action>)
    requires ClientsOk(s) && IsSession(max, s, actions)
    ensures ClientsOk(Session(max, s, actions))
    decreases |actions|
  {
    if actions != [] {
      ActionKeepsClients(max, s, actions[0]);
      SessionKeepsClients(max, Act(max, s, actions[0]), actions[1..]);
    }
  }

  // ----- The bound -----

  ghost predicate SentBound(max: nat, c: Core, cl: Client) {
    !HasTerminal(cl.chan.sent) ==> Bounded(max, c, cl.name, |cl.chan.sent|)
  }

  /** With at most seven attempts the queue keeps everything up to the closing event. */
  ghost predicate ClosingKept(max: nat, chan: Chan) {
    max <= 7 ==> UpToTerminal(chan.sent) <= Through(chan)
  }

  /** An open client is within the bound; a finished one missed nothing if there are few enough attempts. */
  ghost predicate BoundOk(max: nat, c: Core, cl: Client) {
    && cl.name in c.world.db
    && (IsOpen(cl) ==>
          SentBound(max, c, cl) && ClosingKept(max, cl.chan) && |UpToTerminal(cl.chan.sent)| <= 2 * max + 1)
    && (max <= 7 && cl.phase.Finished? && !SnapshotEnds(cl) ==>
          && HasTerminal(Published(c.world.feed, cl.since, cl.name))
          && cl.chan.taken == UpToTerminal(Published(c.world.feed, cl.since, cl.name)))
  }

  ghost predicate SysOk(max: nat, s: Sys) {
    Inv(max, s.core) && ClientsOk(s) && forall k | 0 <= k < |s.clients| :: BoundOk(max, s.core, s.clients[k])
  }

  lemma OfferKeepsClosing(max: nat, chan: Chan, e: StateEvent)
    requires ChanOk(chan) && ClosingKept(max, chan) && (!HasTerminal(chan.sent) ==> |chan.sent| <= 2 * max)
    ensures ClosingKept(max, Offer(chan, e))
  {
    hide UpToTerminal, HasTerminal, Subsequence;
    OfferOk(chan, e);
    UpToTerminalAppend(chan.sent, e);
    if max <= 7 && !HasTerminal(chan.sent) {
      UpToTerminalIsPrefix(chan.sent);
      NothingLostIsEverything(chan);
      assert |chan.queue| <= |Through(chan)| <= 14;
    }
  }

  /** What a step does, as far as one subscriber is concerned. */
  lemma StepFacts(max: nat, c: Core, step: Step, name: string, sent: nat, bounded: bool)
    requires max >= 1 && Inv(max, c) && Enabled(c, step) && Honest(step) && !step.Cancel?
    requires name in c.world.db && (bounded ==> Bounded(max, c, name, sent))
    ensures var c' := Next(max, c, step);
            var subject := Subject(c, step);
            && Tells(c.world, c'.world, subject) && name in c'.world.db
            && (bounded && (subject != name || NoClosing(c.world, c'.world)) ==>
                  Bounded(max, c', name, if subject == name then SentAfter(c.world, c'.world, sent) else sent))
  {
    StepTells(max, c, step);
    StepElsewhere(max, c, step);
    IdStays(max, c, step);
    if bounded {
      StepBound(max, c, step, name, sent);
    }
  }

  /** An open client that hears of a step, or does not. */
  lemma OpenStaysBounded(max: nat, c: Core, c': Core, subject: string, cl: Client)
    requires ClientOk(c.world, cl) && BoundOk(max, c, cl) && IsOpen(cl)
    requires Tells(c.world, c'.world, subject) && cl.name in c'.world.db
    requires !HasTerminal(cl.chan.sent) && (subject != cl.name || NoClosing(c.world, c'.world)) ==>
               Bounded(max, c', cl.name,
                       if subject == cl.name then SentAfter(c.world, c'.world, |cl.chan.sent|) else |cl.chan.sent|)
    ensures BoundOk(max, c', Hear(cl, News(c.world, c'.world)))
  {
    if News(c.world, c'.world).Some? && subject == cl.name {
      var e := News(c.world, c'.world).value;
      OfferKeepsClosing(max, cl.chan, e);
      UpToTerminalAppend(cl.chan.sent, e);
    }
  }

  /** A closed stream keeps what it has; what is published later does not change what it should have got. */
  lemma ClosedStaysBounded(max: nat, c: Core, c': Core, subject: string, cl: Client)
    requires ClientOk(c.world, cl) && BoundOk(max, c, cl) && !IsOpen(cl)
    requires Tells(c.world, c'.world, subject) && cl.name in c'.world.db
    ensures BoundOk(max, c', cl)
  {
    if News(c.world, c'.world).Some? {
      var heard := Published(c.world.feed, cl.since, cl.name);
      PublishedAppend(c.world.feed, News(c.world, c'.world).value, cl.since, cl.name);
      if HasTerminal(heard) {
        PrefixHasSameEnd(heard, Published(c'.world.feed, cl.since, cl.name));
      }
    }
  }

  lemma ProtocolStaysBounded(max: nat, c: Core, step: Step, cl: Client)
    requires max >= 1 && Inv(max, c) && Enabled(c, step) && Honest(step) && ClientOk(c.world, cl) && BoundOk(max, c, cl)
    ensures BoundOk(max, Next(max, c, step), Hear(cl, News(c.world, Next(max, c, step).world)))
  {
    if step.Cancel? {
      CancelStaysBounded(max, c, cl);
    } else {
      var c', subject := Next(max, c, step), Subject(c, step);
      StepFacts(max, c, step, cl.name, |cl.chan.sent|, IsOpen(cl) && !HasTerminal(cl.chan.sent));
      if IsOpen(cl) {
        OpenStaysBounded(max, c, c', subject, cl);
      } else {
        ClosedStaysBounded(max, c, c', subject, cl);
      }
    }
  }

  lemma CancelStaysBounded(max: nat, c: Core, cl: Client)
    requires BoundOk(max, c, cl)
    ensures BoundOk(max, c.(cancelled := true), cl)
  {
    assert forall i | LiveFor(c.(cancelled := true), i, cl.name) :: LiveFor(c, i, cl.name);
  }

  /** Receiving changes nothing of what was sent, nor of what got through. */
  lemma ReceiveStaysBounded(max: nat, c: Core, cl: Client, writes: nat)
    requires ClientOk(c.world, cl) && BoundOk(max, c, cl) && cl.phase.Draining? && cl.chan.queue != []
    ensures BoundOk(max, c, Received(cl, writes))
  {
    TakeOk(cl.chan);
    ReceiveFrames(cl, writes);
    var cl' := Received(cl, writes);
    if cl'.phase.Finished? && max <= 7 && !SnapshotEnds(cl') {
      TakenIsEverything(cl'.chan);
    }
  }

  lemma SnapshotStaysBounded(max: nat, c: Core, cl: Client, works: bool, writes: nat)
    requires BoundOk(max, c, cl) && cl.phase.Subscribed?
    ensures BoundOk(max, c, TakeSnapshot(cl, c.world, works, writes))
  {
  }

  lemma LeaveStaysBounded(max: nat, c: Core, cl: Client)
    requires BoundOk(max, c, cl)
    ensures BoundOk(max, c, cl.(phase := Gone))
  {
  }

  lemma OpenIsBounded(max: nat, c: Core, name: string)
    requires max >= 1 && name in c.world.db && Inv(max, c)
    ensures BoundOk(max, c, Subscriber(name, c.world))
  {
    assert InvAt(max, c, name);
  }

  lemma ActionKeeps(max: nat, s: Sys, a: Action)
    requires max >= 1 && SysOk(max, s) && Possible(s, a) && (a.Protocol? ==> Honest(a.step))
    ensures SysOk(max, Act(max, s, a))
  {
    hide ClientOk, BoundOk;
    ActionKeepsClients(max, s, a);
    match a
    case Protocol(step) =>
      StepKeeps(max, s.core, step);
      forall k | 0 <= k < |s.clients|
        ensures BoundOk(max, Next(max, s.core, step),
                        Hear(s.clients[k], News(s.core.world, Next(max, s.core, step).world)))
      {
        ProtocolStaysBounded(max, s.core, step, s.clients[k]);
      }
    case Open(name) => OpenIsBounded(max, s.core, name);
    case Snapshot(k, works, writes) => SnapshotStaysBounded(max, s.core, s.clients[k], works, writes);
    case Receive(k, writes) => ReceiveStaysBounded(max, s.core, s.clients[k], writes);
    case Leave(k) => LeaveStaysBounded(max, s.core, s.clients[k]);
  }

  lemma {:induction false} SessionKeeps(max: nat, s: Sys, actions: seq<Action>)
    requires max >= 1 && SysOk(max, s) && IsSession(max, s, actions) && HonestSession(actions)
    ensures SysOk(max, Session(max, s, actions))
    decreases |actions|
  {
    if actions != [] {
      ActionKeeps(max, s, actions[0]);
      SessionKeeps(max, Act(max, s, actions[0]), actions[1..]);
    }
  }

  // ----- Main results -----

  /** A session can begin in any state that the invariant admits: on empty stores, or after a restart. */
  function Fresh(c: Core): Sys {
    Sys(c, [])
  }

  /**
   No slow subscriber loses the closing event.  However slowly a client of an honest session
   receives, at most 2 * max + 1 events are published to it up to the first terminal one;
   and with at most seven attempts none of those is dropped.
   */
  lemma ClosingEventGetsThrough(max: nat, c: Core, actions: seq<Action>, k: nat)
    requires max >= 1 && Inv(max, c) && IsSession(max, Fresh(c), actions) && HonestSession(actions)
    requires k < |Session(max, Fresh(c), actions).clients|
    requires IsOpen(Session(max, Fresh(c), actions).clients[k])
    ensures var chan := Session(max, Fresh(c), actions).clients[k].chan;
            && |UpToTerminal(chan.sent)| <= 2 * max + 1
            && (max <= 7 ==> UpToTerminal(chan.sent) <= Through(chan))
  {
    SessionKeeps(max, Fresh(c), actions);
  }

  /** Nothing that matters was dropped: nothing at all, or the session was honest and of at most seven attempts. */
  ghost predicate Spared(max: nat, c: Core, actions: seq<Action>, chan: Chan) {
    chan.lost == 0 || (1 <= max <= 7 && Inv(max, c) && HonestSession(actions))
  }

  /**
   A stream has no gap.  When nothing that matters was dropped, a client whose snapshot
   succeeded wrote the snapshot first, and then, if that was not terminal, exactly what was
   published under its name from its subscription on, in order, up to the first terminal
   event: what came before the snapshot, then all that came after it.
   */
  lemma StreamHasNoGap(max: nat, c: Core, actions: seq<Action>, k: nat)
    requires Filed(c) && IsSession(max, Fresh(c), actions)
    requires k < |Session(max, Fresh(c), actions).clients|
    requires Spared(max, c, actions, Session(max, Fresh(c), actions).clients[k].chan)
    ensures var s := Session(max, Fresh(c), actions);
            var cl := s.clients[k];
            && cl.since <= cl.seen <= |s.core.world.feed|
            && var feed := s.core.world.feed;
               var events := Published(feed[..cl.seen], cl.since, cl.name) + Published(feed, cl.seen, cl.name);
               && (cl.phase.Finished? && SnapshotEnds(cl) ==> cl.frames == Head(cl))
               && (cl.phase.Finished? && !SnapshotEnds(cl) ==>
                     HasTerminal(events) && cl.frames == Head(cl) + EmitAll(UpToTerminal(events)))
               && (cl.phase.Draining? ==>
                     && cl.frames == Head(cl) + EmitAll(cl.chan.taken)
                     && cl.chan.sent == events
                     && UpToTerminal(events) <= Through(cl.chan))
  {
    SessionKeepsClients(max, Fresh(c), actions);
    var s := Session(max, Fresh(c), actions);
    var cl := s.clients[k];
    assert ClientOk(s.core.world, cl);
    PublishedSplits(s.core.world.feed, cl.since, cl.seen, cl.name);
    if cl.chan.lost == 0 {
      NothingDropped(cl.chan);
    } else {
      SessionKeeps(max, Fresh(c), actions);
      assert BoundOk(max, s.core, cl);
    }
  }

  /** Whatever fails, a finished stream closes with exactly one closing frame, and an open one has written none. */
  lemma OneClosingFrame(max: nat, c: Core, actions: seq<Action>, k: nat)
    requires Filed(c) && IsSession(max, Fresh(c), actions)
    requires k < |Session(max, Fresh(c), actions).clients|
    ensures var cl := Session(max, Fresh(c), actions).clients[k];
            && (IsOpen(cl) ==> forall f <- cl.frames :: f.Data?)
            && (cl.phase.Finished? ==>
                  && |cl.frames| >= 1 && cl.frames[|cl.frames| - 1].Finish?
                  && forall f <- cl.frames[..|cl.frames| - 1] :: f.Data?)
  {
    SessionKeepsClients(max, Fresh(c), actions);
    ClosingFrames(Session(max, Fresh(c), actions).clients[k]);
  }

  lemma ClosingFrames(cl: Client)
    requires FramesOk(cl)
    ensures IsOpen(cl) ==> forall f <- cl.frames :: f.Data?
    ensures cl.phase.Finished? ==>
              && |cl.frames| >= 1 && cl.frames[|cl.frames| - 1].Finish?
              && forall f <- cl.frames[..|cl.frames| - 1] :: f.Data?
  {
    var taken := cl.chan.taken;
    if cl.phase.Draining? {
      EmitsNoClosing(taken);
    } else if cl.phase.Finished? && taken != [] {
      var front, last := taken[..|taken| - 1], taken[|taken| - 1];
      assert taken == front + [last];
      EndsOnTerminal(front, last);
      EmitsNoClosing(front);
      EmitAllAppend(front, last);
      hide UpToTerminal, HasTerminal, EmitAll;
      EndsOnce(cl.frames, Head(cl) + EmitAll(front), AsMessage(last));
    }
  }

  lemma EndsOnTerminal(front: seq<StateEvent>, last: StateEvent)
    requires UpToTerminal(front + [last]) == front + [last] && HasTerminal(front + [last])
    ensures !HasTerminal(front) && Terminal(last.state)
  {
    UpToTerminalAppend(front, last);
    UpToTerminalIsPrefix(front);
  }

  lemma EndsOnce(frames: seq<Frame>, before: seq<Frame>, m: Message)
    requires (forall f <- before :: f.Data?) && frames == before + [Data(m), Finish(m)]
    ensures frames[|frames| - 1].Finish? && forall f <- frames[..|frames| - 1] :: f.Data?
  {
    assert frames[..|frames| - 1] == before + [Data(m)];
  }

  lemma {:induction false} EmitsNoClosing(es: seq<StateEvent>)
    requires !HasTerminal(es)
    ensures forall f <- EmitAll(es) :: f.Data?
  {
    if es != [] {
      var front, last := es[..|es| - 1], es[|es| - 1];
      assert es == front + [last];
      UpToTerminalAppend(front, last);
      EmitsNoClosing(front);
    }
  }
}
