/** What a stream writes, frame by frame, and exactly where it closes. */
module Frames {
  import opened Storage
  import opened Fsm
  import opened Lifecycle
  import opened Engine
  import opened Filing
  import opened Agreement
  import opened Channel
  import opened Feed
  import opened Streams
  import Exact
  import StreamResults

  // ----- Which states and events close a stream -----

  /** A stream closes at every state but pending in which nothing is under way. */
  lemma TerminalIsSettled(s: State)
    ensures Terminal(s) <==> !IsTransitional(s) && s != Pending
  {
  }

  /** The events that end an operation. */
  predicate Ends(event: Event) {
    || event == EventReady || event == EventAttached || event == EventDetached || event == EventDeleted
    || event == EventFail
  }

  /** The event's state is one that the event leads to. */
  ghost predicate LeadsThere(e: StateEvent) {
    exists s :: Transition(s, e.event) == Some(e.state)
  }

  lemma EndsLeadToRest(e: StateEvent)
    requires LeadsThere(e)
    ensures Ends(e.event) <==> Terminal(e.state)
    ensures Ends(e.event) <==> e.state == Available || e.state == Attached || e.state == Deleted || e.state == Error
  {
  }

  lemma ApplyLeads(w: World, v: Volume, event: Event, f: Faults)
    ensures var news := News(w, ApplyEvent(w, v, event, f).world);
            news.Some? ==> LeadsThere(news.value) && news.value.event == event
  {
    assert Transition(v.state, event).Some? ==> LeadsThere(StateEvent(v.name, Transition(v.state, event).value, event));
  }

  lemma WorkLeads(max: nat, w: World, k: Worker, choice: Choice)
    ensures var news := News(w, Work(max, w, k, choice).0);
            news.Some? ==> LeadsThere(news.value)
  {
    hide ApplyEvent, Serve, LeadsThere;
    if k.task.name in w.db {
      var v := w.db[k.task.name];
      ApplyLeads(w, PostSuccess(v, k.task.kind), Success(k.task.kind), choice.faults);
      ApplyLeads(w, v, EventError, choice.faults);
      ApplyLeads(w, v, EventFail, choice.faults);
      ApplyLeads(w, v, EventRetry, choice.faults);
    }
  }

  lemma CallLeads(c: Core, step: Step)
    requires Enabled(c, step) && !step.Cancel? && !step.Advance?
    ensures var news := News(c.world, ResponseTo(c, step).world);
            news.Some? ==> LeadsThere(news.value)
  {
    assert Transition(Pending, EventCreate) == Some(Creating) && Transition(Available, EventAttach) == Some(Attaching);
    assert Transition(Attached, EventDetach) == Some(Detaching) && Transition(Available, EventDelete) == Some(Deleting);
  }

  /** Whatever fails, what a step publishes is an event with a state that it leads to. */
  lemma StepLeads(max: nat, c: Core, step: Step)
    requires Enabled(c, step)
    ensures var news := News(c.world, Next(max, c, step).world);
            news.Some? ==> LeadsThere(news.value)
  {
    hide LeadsThere;
    if step.Advance? {
      WorkLeads(max, c.world, c.workers[step.worker], step.choice);
    } else if !step.Cancel? {
      CallLeads(c, step);
    }
  }

  ghost predicate AllLead(s: Sys) {
    forall k | 0 <= k < |s.clients| :: forall e <- s.clients[k].chan.sent :: LeadsThere(e)
  }

  lemma ActionStaysLeading(max: nat, s: Sys, a: Action)
    requires AllLead(s) && Possible(s, a)
    ensures AllLead(Act(max, s, a))
  {
    hide LeadsThere;
    if a.Protocol? {
      StepLeads(max, s.core, a.step);
    }
  }

  lemma {:induction false} SessionStaysLeading(max: nat, s: Sys, actions: seq<Action>)
    requires AllLead(s) && IsSession(max, s, actions)
    ensures AllLead(Session(max, s, actions))
    decreases |actions|
  {
    if actions != [] {
      ActionStaysLeading(max, s, actions[0]);
      SessionStaysLeading(max, Act(max, s, actions[0]), actions[1..]);
    }
  }

  lemma {:induction false} SubsequenceMembers(sub: seq<StateEvent>, all: seq<StateEvent>)
    requires Subsequence(sub, all)
    ensures forall e <- sub :: e in all
    decreases |all|
  {
    if sub != [] {
      var front := all[..|all| - 1];
      if sub[|sub| - 1] == all[|all| - 1] {
        SubsequenceMembers(sub[..|sub| - 1], front);
        assert sub == sub[..|sub| - 1] + [sub[|sub| - 1]];
      } else {
        SubsequenceMembers(sub, front);
      }
    }
  }

  /**
   In every session, whatever fails: a stream that is open has received no event that ends an
   operation; and one that closed on an event closed on the first such event that it received.
   */
  lemma StreamsCloseAtTheEnd(max: nat, c: Core, actions: seq<Action>, k: nat)
    requires Filed(c) && IsSession(max, Fresh(c), actions) && k < |Session(max, Fresh(c), actions).clients|
    ensures var cl := Session(max, Fresh(c), actions).clients[k];
            && (IsOpen(cl) ==> forall e <- cl.chan.taken :: !Ends(e.event))
            && (cl.phase.Finished? && !SnapshotEnds(cl) ==>
                  && cl.chan.taken != [] && Ends(cl.chan.taken[|cl.chan.taken| - 1].event)
                  && forall e <- cl.chan.taken[..|cl.chan.taken| - 1] :: !Ends(e.event))
  {
    SessionStaysLeading(max, Fresh(c), actions);
    SessionKeepsClients(max, Fresh(c), actions);
    var s := Session(max, Fresh(c), actions);
    var cl := s.clients[k];
    assert ClientOk(s.core.world, cl);
    var taken := cl.chan.taken;
    SubsequenceMembers(Through(cl.chan), cl.chan.sent);
    forall e | e in taken ensures Ends(e.event) <==> Terminal(e.state) {
      assert e in Through(cl.chan);
      EndsLeadToRest(e);
    }
    if cl.phase.Finished? && !SnapshotEnds(cl) {
      ClosesOnTheLast(taken);
    }
  }

  lemma ClosesOnTheLast(taken: seq<StateEvent>)
    requires HasTerminal(taken) && UpToTerminal(taken) == taken
    ensures taken != [] && Terminal(taken[|taken| - 1].state) && !HasTerminal(taken[..|taken| - 1])
  {
    var front := taken[..|taken| - 1];
    UpToTerminalIsPrefix(front);
    assert taken == front + [taken[|taken| - 1]];
    UpToTerminalAppend(front, taken[|taken| - 1]);
  }

  /** A stream that has ended hears nothing more, and writes nothing more, whatever goes on. */
  lemma {:induction false} EndedStreamsRest(max: nat, s: Sys, actions: seq<Action>, k: nat)
    requires IsSession(max, s, actions) && k < |s.clients| && !IsOpen(s.clients[k])
    ensures k < |Session(max, s, actions).clients| && Session(max, s, actions).clients[k] == s.clients[k]
    decreases |actions|
  {
    if actions != [] {
      EndedStreamsRest(max, Act(max, s, actions[0]), actions[1..], k);
    }
  }

  /** A client that leaves ends its stream with the frames it has. */
  lemma LeavingEndsStream(max: nat, s: Sys, k: nat)
    requires Possible(s, Leave(k))
    ensures var cl, cl' := s.clients[k], Act(max, s, Leave(k)).clients[k];
            !IsOpen(cl') && cl'.frames == cl.frames && cl'.chan == cl.chan
  {
  }

  // ----- In sound sessions -----

  /** A step publishes an event that ends an operation exactly when its worker is done with it. */
  lemma EndsExactlyWhenDone(max: nat, c: Core, step: Step)
    requires Inv(max, c) && Exact.Exactly(c) && Enabled(c, step) && Exact.Sound(step)
    ensures var c' := Next(max, c, step);
            News(c.world, c'.world).Some? ==>
              (Ends(News(c.world, c'.world).value.event) <==> step.Advance? && c'.workers[step.worker].pc.Done?)
  {
    if step.Advance? {
      var k := c.workers[step.worker];
      assert InvAt(max, c, k.task.name) && Exact.ExactAt(c, k.task.name) && LiveFor(c, step.worker, k.task.name);
      StageEndsExactlyWhenDone(max, c.world, k, step.choice);
    }
  }

  lemma StageEndsExactlyWhenDone(max: nat, w: World, k: Worker, choice: Choice)
    requires WorkerOk(max, w, k) && w.db[k.task.name].name == k.task.name
    requires w.db[k.task.name].state == Exact.StageState(k)
    requires !k.pc.Done? && choice.faults == NO_FAULTS && !choice.stop
    ensures var (w', k') := Work(max, w, k, choice);
            News(w, w').Some? ==> (Ends(News(w, w').value.event) <==> k'.pc.Done?)
  {
    Exact.Edges(k.task.kind);
  }

  /** A stream closes on its snapshot exactly when nobody works on the volume, and it was ever created. */
  lemma ClosesOnSnapshotExactlyAtRest(max: nat, s: Sys, k: nat, writes: nat)
    requires Exact.Exactly(s.core) && Possible(s, Snapshot(k, true, writes)) && s.clients[k].name in s.core.world.db
    requires writes >= 2
    ensures var c, name := s.core, s.clients[k].name;
            Act(max, s, Snapshot(k, true, writes)).clients[k].phase.Finished? <==>
              c.world.db[name].state != Pending && forall i :: !LiveFor(c, i, name)
  {
    assert Exact.ExactAt(s.core, s.clients[k].name);
    TerminalIsSettled(s.core.world.db[s.clients[k].name].state);
  }

  // ----- Frame by frame -----

  /** The snapshot's data frame tells the record's name and state, if it is found and the write works. */
  lemma SnapshotTellsRecord(max: nat, s: Sys, k: nat, works: bool, writes: nat)
    requires Possible(s, Snapshot(k, works, writes)) && s.clients[k].frames == []
    ensures var cl, w := s.clients[k], s.core.world;
            var cl' := Act(max, s, Snapshot(k, works, writes)).clients[k];
            if works && cl.name in w.db then
              && cl'.snapshot == Some(Message(cl.name, w.db[cl.name].state, None))
              && (writes >= 1 ==>
                    cl'.frames != [] && cl'.frames[0] == Data(Message(cl.name, w.db[cl.name].state, None)))
              && (writes == 0 ==> cl'.frames == [] && cl'.phase.Gone?)
            else cl' == cl.(phase := Draining, seen := |w.feed|, looked := |w.log|)
  {
  }

  /**
   A receive takes the oldest waiting event and writes its data frame and, if the state is available,
   attached, deleted or error, a closing frame, as far as the writes work; the stream goes on exactly
   if all of them do and it is not closed.
   */
  lemma ReceiveTellsEvent(max: nat, s: Sys, k: nat, writes: nat)
    requires Possible(s, Receive(k, writes))
    ensures var cl := s.clients[k];
            var e := cl.chan.queue[0];
            var m := Message(e.name, e.state, Some(e.event));
            var closing := e.state == Available || e.state == Attached || e.state == Deleted || e.state == Error;
            var all := if closing then [Data(m), Finish(m)] else [Data(m)];
            var cl' := Act(max, s, Receive(k, writes)).clients[k];
            && cl'.frames == cl.frames + (if writes < |all| then all[..writes] else all)
            && cl'.phase == (if writes < |all| then Gone else if closing then Finished else Draining)
            && cl'.chan.queue == cl.chan.queue[1..] && cl'.chan.taken == cl.chan.taken + [e]
  {
  }

  /** No terminal one among them: one data frame for each event, and nothing else. */
  lemma {:induction false} EmitsOneEach(es: seq<StateEvent>)
    requires !HasTerminal(es)
    ensures |EmitAll(es)| == |es|
    ensures forall j | 0 <= j < |es| :: EmitAll(es)[j] == Data(Message(es[j].name, es[j].state, Some(es[j].event)))
  {
    if es != [] {
      var front := es[..|es| - 1];
      assert es == front + [es[|es| - 1]];
      UpToTerminalAppend(front, es[|es| - 1]);
      EmitsOneEach(front);
    }
  }

  /**
   The frames of what a stream received: one for each event, and the closing frame if the last one is
   terminal.
   */
  lemma EmitsTaken(taken: seq<StateEvent>)
    requires HasTerminal(taken) ==> UpToTerminal(taken) == taken
    ensures var all := EmitAll(taken);
            && |all| == |taken| + (if HasTerminal(taken) then 1 else 0)
            && (forall j | 0 <= j < |taken| :: all[j] == Data(AsTold(taken[j])))
            && (HasTerminal(taken) ==> taken != [] && all[|taken|] == Finish(AsTold(taken[|taken| - 1])))
  {
    if HasTerminal(taken) {
      ClosesOnTheLast(taken);
      var front, last := taken[..|taken| - 1], taken[|taken| - 1];
      EmitsOneEach(front);
      EmitAllAppend(front, last);
      assert taken == front + [last];
    } else {
      EmitsOneEach(taken);
    }
  }

  /** The name, the state and the cause. */
  function AsTold(e: StateEvent): Message {
    Message(e.name, e.state, Some(e.event))
  }

  /** How many frames the snapshot has. */
  function SnapshotFrames(cl: Client): nat {
    if cl.snapshot.None? then 0 else if SnapshotEnds(cl) then 2 else 1
  }

  lemma HeadTellsSnapshot(cl: Client)
    ensures |Head(cl)| == SnapshotFrames(cl)
    ensures cl.snapshot.Some? ==> Head(cl)[0] == Data(cl.snapshot.value)
    ensures SnapshotEnds(cl) ==> Head(cl)[1] == Finish(cl.snapshot.value)
  {
  }

  lemma FramesSplit(cl: Client)
    requires FramesOk(cl) && !cl.phase.Gone? && !cl.phase.Subscribed?
    ensures var n := SnapshotFrames(cl);
            |cl.frames| >= n && cl.frames[..n] == Head(cl) && cl.frames[n..] == EmitAll(cl.chan.taken)
  {
    HeadTellsSnapshot(cl);
    assert cl.frames == Head(cl) + EmitAll(cl.chan.taken);
  }

  /** The stream has been open, and has not broken off. */
  predicate IsWhole(cl: Client) {
    cl.phase.Draining? || cl.phase.Finished?
  }

  /**
   One data frame for each event, with its name, its state and its cause; and, in a finished stream,
   the last message again, as the closing frame.
   */
  ghost predicate RestTells(rest: seq<Frame>, taken: seq<StateEvent>, finished: bool) {
    && |rest| == |taken| + (if finished then 1 else 0)
    && (forall j | 0 <= j < |taken| :: rest[j] == Data(Message(taken[j].name, taken[j].state, Some(taken[j].event))))
    && (finished ==>
          && taken != []
          && var last := taken[|taken| - 1];
             rest[|taken|] == Finish(Message(last.name, last.state, Some(last.event))))
  }

  /** The snapshot's frames, if there was one, and then those of the events received. */
  ghost predicate FramesTell(cl: Client) {
    var n := SnapshotFrames(cl);
    && |cl.frames| >= n
    && (cl.snapshot.Some? ==> cl.frames[0] == Data(cl.snapshot.value))
    && if SnapshotEnds(cl) then cl.frames == [Data(cl.snapshot.value), Finish(cl.snapshot.value)]
       else RestTells(cl.frames[n..], cl.chan.taken, cl.phase.Finished?)
  }

  lemma EmitsRest(taken: seq<StateEvent>)
    requires HasTerminal(taken) ==> UpToTerminal(taken) == taken
    ensures RestTells(EmitAll(taken), taken, HasTerminal(taken))
  {
    hide EmitAll, UpToTerminal, HasTerminal;
    EmitsTaken(taken);
  }

  lemma WhereItStands(cl: Client)
    requires FramesOk(cl) && IsWhole(cl)
    ensures HasTerminal(cl.chan.taken) ==> UpToTerminal(cl.chan.taken) == cl.chan.taken
    ensures if SnapshotEnds(cl) then cl.chan.taken == [] else HasTerminal(cl.chan.taken) == cl.phase.Finished?
  {
  }

  lemma ClosedAtOnce(cl: Client)
    requires SnapshotEnds(cl) && |cl.frames| == SnapshotFrames(cl) && cl.frames[..SnapshotFrames(cl)] == Head(cl)
    ensures cl.frames == [Data(cl.snapshot.value), Finish(cl.snapshot.value)]
  {
    assert cl.frames == cl.frames[..2];
  }

  lemma WholeFramesTell(cl: Client)
    requires FramesOk(cl) && IsWhole(cl)
    ensures FramesTell(cl)
  {
    WhereItStands(cl);
    FramesSplit(cl);
    HeadTellsSnapshot(cl);
    EmitsRest(cl.chan.taken);
    hide FramesOk, EmitAll, Head, UpToTerminal, HasTerminal, RestTells;
    assert cl.snapshot.Some? ==> cl.frames[0] == cl.frames[..SnapshotFrames(cl)][0];
    if SnapshotEnds(cl) {
      NothingEmitted();
      ClosedAtOnce(cl);
    }
  }

  lemma NothingEmitted()
    ensures EmitAll([]) == []
  {
  }

  /** In every session, whatever fails, the frames of every stream that has not broken off tell just that. */
  lemma FramesTellEvents(max: nat, c: Core, actions: seq<Action>, k: nat)
    requires Filed(c) && IsSession(max, Fresh(c), actions) && k < |Session(max, Fresh(c), actions).clients|
    ensures var cl := Session(max, Fresh(c), actions).clients[k]; IsWhole(cl) ==> FramesTell(cl)
  {
    SessionKeepsClients(max, Fresh(c), actions);
    var s := Session(max, Fresh(c), actions);
    var cl := s.clients[k];
    assert ClientOk(s.core.world, cl);
    if IsWhole(cl) {
      WholeFramesTell(cl);
    }
  }
}
