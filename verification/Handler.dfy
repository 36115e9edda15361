/** The handler of an event stream, over the heap: subscribe, snapshot, drain until a terminal state, unsubscribe. */
module Handler {
  import opened Storage
  import opened Lifecycle
  import opened Engine
  import opened Filing
  import opened Channel
  import opened Feed
  import opened Streams
  import opened Broker
  import opened Conduct
  import Application
  import Mock
  import Repository

  /**
   What happens next while a stream is open: a call, a stage of a worker or the shutdown begins;
   another stream subscribes, or ends; the handler gets to run, and so many of its writes
   succeed; or the client leaves.
   */
  datatype Turn =
    | Happens(step: Step)
    | Joins(name: string, works: bool)
    | Quits(guest: nat)
    | Resumed(writes: nat)
    | Disconnected

  /** What others make of the system; they take no step that they cannot take. */
  function Changed(max: nat, c: Core, turn: Turn): Core {
    if turn.Happens? && Enabled(c, turn.step) then Next(max, c, turn.step) else c
  }

  function Took(max: nat, c: Core, cl: Client, turn: Turn): Client {
    match turn
    case Happens(_) => Hear(cl, News(c.world, Changed(max, c, turn).world))
    case Resumed(writes) => if cl.phase.Draining? && cl.chan.queue != [] then Received(cl, writes) else cl
    case Disconnected => if IsOpen(cl) then cl.(phase := Gone) else cl
    case _ => cl
  }

  /** The system after the first i turns. */
  function CoreAfter(max: nat, c: Core, turns: seq<Turn>, i: nat): Core
    requires i <= |turns|
  {
    if i == 0 then c else Changed(max, CoreAfter(max, c, turns, i - 1), turns[i - 1])
  }

  /** And the client. */
  function ClientAfter(max: nat, c: Core, cl: Client, turns: seq<Turn>, i: nat): Client
    requires i <= |turns|
  {
    if i == 0 then cl
    else Took(max, CoreAfter(max, c, turns, i - 1), ClientAfter(max, c, cl, turns, i - 1), turns[i - 1])
  }

  /** What the environment decides: the two reads, and what happens before the snapshot and after it. */
  datatype Course = Course(subscribes: bool, early: seq<Turn>, looks: bool, writes: nat, turns: seq<Turn>)

  /** The system when the snapshot is taken, and at the end. */
  function CoreLooked(max: nat, c: Core, course: Course): Core {
    CoreAfter(max, c, course.early, |course.early|)
  }

  function CoreEnded(max: nat, c: Core, course: Course): Core {
    CoreAfter(max, CoreLooked(max, c, course), course.turns, |course.turns|)
  }

  /** The client just after its snapshot, and at the end. */
  function ClientLooked(max: nat, c: Core, name: string, course: Course): Client {
    TakeSnapshot(ClientAfter(max, c, Subscriber(name, c.world), course.early, |course.early|),
                 CoreLooked(max, c, course).world, course.looks, course.writes)
  }

  function Streamed(max: nat, c: Core, name: string, course: Course): Client {
    ClientAfter(max, CoreLooked(max, c, course), ClientLooked(max, c, name, course), course.turns, |course.turns|)
  }

  predicate OnlyOthers(turns: seq<Turn>) {
    forall t <- turns :: !t.Resumed? && !t.Disconnected?
  }

  /** Every step can be taken when its turn comes. */
  ghost predicate Lawful(max: nat, c: Core, turns: seq<Turn>) {
    forall i | 0 <= i < |turns| && turns[i].Happens? ::
      OnMock(turns[i].step) && Enabled(CoreAfter(max, c, turns, i), turns[i].step)
  }

  lemma {:induction false} EarlyStaysSubscribed(max: nat, c: Core, cl: Client, turns: seq<Turn>, i: nat)
    requires cl.phase.Subscribed? && OnlyOthers(turns) && i <= |turns|
    ensures ClientAfter(max, c, cl, turns, i).(chan := cl.chan) == cl
  {
    hide Changed, News, Offer;
    if i > 0 {
      EarlyStaysSubscribed(max, c, cl, turns, i - 1);
      assert turns[i - 1] in turns;
    }
  }

  /** Once the client has left, or its stream has ended, nothing is written any more. */
  lemma {:induction false} NothingAfterTheEnd(max: nat, c: Core, cl: Client, turns: seq<Turn>, j: nat, i: nat)
    requires j < i <= |turns| && (turns[j].Disconnected? || !IsOpen(ClientAfter(max, c, cl, turns, j)))
    ensures ClientAfter(max, c, cl, turns, i).frames == ClientAfter(max, c, cl, turns, j).frames
    ensures !IsOpen(ClientAfter(max, c, cl, turns, i))
    decreases i
  {
    hide Changed;
    if j < i - 1 {
      NothingAfterTheEnd(max, c, cl, turns, j, i - 1);
    }
  }

  // ----- A stream is a client of a session -----

  ghost predicate Plays(max: nat, c: Core, actions: seq<Action>, core: Core, cl: Client) {
    IsSession(max, Fresh(c), actions) && Session(max, Fresh(c), actions) == Sys(core, [cl])
  }

  lemma ActOnce(max: nat, c: Core, actions: seq<Action>, a: Action) returns (longer: seq<Action>)
    requires IsSession(max, Fresh(c), actions) && Possible(Session(max, Fresh(c), actions), a)
    ensures IsSession(max, Fresh(c), longer)
    ensures Session(max, Fresh(c), longer) == Act(max, Session(max, Fresh(c), actions), a)
  {
    SessionExtends(max, Fresh(c), actions, a);
    longer := actions + [a];
  }

  /** A turn is an action of the session, or none. */
  lemma TurnIsAction(max: nat, c: Core, actions: seq<Action>, core: Core, cl: Client, turn: Turn)
    returns (longer: seq<Action>)
    requires Plays(max, c, actions, core, cl)
    ensures Plays(max, c, longer, Changed(max, core, turn), Took(max, core, cl, turn))
  {
    hide IsSession, Session;
    longer := actions;
    match turn
    case Happens(step) =>
      if Enabled(core, step) {
        longer := ActOnce(max, c, actions, Protocol(step));
        assert Session(max, Fresh(c), longer).clients == [Took(max, core, cl, turn)];
      }
    case Resumed(writes) =>
      if cl.phase.Draining? && cl.chan.queue != [] {
        longer := ActOnce(max, c, actions, Streams.Receive(0, writes));
      }
    case Disconnected =>
      if IsOpen(cl) {
        longer := ActOnce(max, c, actions, Streams.Leave(0));
      }
    case _ =>
  }

  lemma {:induction false} TurnsAreActions(
    max: nat, c: Core, actions: seq<Action>, core: Core, cl: Client, turns: seq<Turn>, i: nat)
    returns (longer: seq<Action>)
    requires Plays(max, c, actions, core, cl) && i <= |turns|
    ensures Plays(max, c, longer, CoreAfter(max, core, turns, i), ClientAfter(max, core, cl, turns, i))
  {
    hide Plays, Took, Changed;
    if i == 0 {
      longer := actions;
    } else {
      longer := TurnsAreActions(max, c, actions, core, cl, turns, i - 1);
      longer := TurnIsAction(max, c, longer, CoreAfter(max, core, turns, i - 1),
                             ClientAfter(max, core, cl, turns, i - 1), turns[i - 1]);
    }
  }

  /** A stream's client is the only client of a session, and so has all that sessions have. */
  lemma StreamIsSession(max: nat, c: Core, name: string, course: Course) returns (actions: seq<Action>)
    requires name in c.world.db && OnlyOthers(course.early)
    ensures Plays(max, c, actions, CoreEnded(max, c, course), Streamed(max, c, name, course))
  {
    var joined := Subscriber(name, c.world);
    actions := Opened(max, c, name);
    actions := TurnsAreActions(max, c, actions, c, joined, course.early, |course.early|);
    EarlyStaysSubscribed(max, c, joined, course.early, |course.early|);
    actions := Looked(max, c, actions, CoreLooked(max, c, course),
                      ClientAfter(max, c, joined, course.early, |course.early|), course);
    actions := TurnsAreActions(max, c, actions, CoreLooked(max, c, course), ClientLooked(max, c, name, course),
                               course.turns, |course.turns|);
  }

  lemma Opened(max: nat, c: Core, name: string) returns (actions: seq<Action>)
    requires name in c.world.db
    ensures Plays(max, c, actions, c, Subscriber(name, c.world))
  {
    actions := [];
    assert IsSession(max, Fresh(c), actions) && Session(max, Fresh(c), actions) == Fresh(c);
    hide IsSession, Session;
    actions := ActOnce(max, c, actions, Open(name));
  }

  lemma Looked(max: nat, c: Core, actions: seq<Action>, core: Core, cl: Client, course: Course)
    returns (longer: seq<Action>)
    requires Plays(max, c, actions, core, cl) && cl.phase.Subscribed?
    ensures Plays(max, c, longer, core, TakeSnapshot(cl, core.world, course.looks, course.writes))
  {
    hide IsSession, Session, TakeSnapshot;
    longer := ActOnce(max, c, actions, Snapshot(0, course.looks, course.writes));
  }

  /**
   Whatever others do, however slowly the client reads and wherever its connection breaks: the
   frames are those of the snapshot and of the events received; a finished stream has one
   closing frame, at its end; and if nothing was dropped, it received everything published from
   its subscription on up to the first terminal event.
   */
  lemma StreamIsSound(max: nat, c: Core, name: string, course: Course)
    requires Filed(c) && name in c.world.db && OnlyOthers(course.early)
    ensures var w, cl := CoreEnded(max, c, course).world, Streamed(max, c, name, course);
            && ClientOk(w, cl)
            && (IsOpen(cl) ==> forall f <- cl.frames :: f.Data?)
            && (cl.phase.Finished? ==>
                  && |cl.frames| >= 1 && cl.frames[|cl.frames| - 1].Finish?
                  && forall f <- cl.frames[..|cl.frames| - 1] :: f.Data?)
  {
    var actions := StreamIsSession(max, c, name, course);
    hide Streamed, CoreEnded, IsSession, Session;
    SessionKeepsClients(max, Fresh(c), actions);
    OneClosingFrame(max, c, actions, 0);
  }

  // ----- Over the heap -----

  /** Writes a message, and a closing frame if it is terminal; the first write that fails ends the stream. */
  method Write(frames: seq<Frame>, m: Message, writes: nat) returns (out: seq<Frame>, phase: Phase)
    ensures forall cl: Client | cl.frames == frames :: Deliver(cl, m, writes) == cl.(frames := out, phase := phase)
    ensures !phase.Subscribed?
    ensures var closing := m.state == Available || m.state == Attached || m.state == Deleted || m.state == Error;
            if writes == 0 then out == frames && phase == Gone
            else if !closing then out == frames + [Data(m)] && phase == Draining
            else if writes == 1 then out == frames + [Data(m)] && phase == Gone
            else out == frames + [Data(m), Finish(m)] && phase == Finished
  {
    if writes == 0 {
      return frames, Gone;
    }
    out := frames + [Data(m)];
    if Terminal(m.state) {
      if writes == 1 {
        return out, Gone;
      }
      return out + [Finish(m)], Finished;
    }
    phase := Draining;
  }

  /** Others take a step; the stream's own channel hears of it if the name is its own. */
  method OthersGoOn(service: Service, ch: EventChannel, step: Step)
    requires service.app.Valid() && ch in service.app.broker.Repr && Enabled(service.AsCore(), step) && OnMock(step)
    modifies service, service.app.repo, service.app.backend, service.app.backend.Repr
    modifies service.app.broker`feed, service.app.broker.Repr
    ensures service.app.Valid() && fresh(service.app.repo.Repr - old(service.app.repo.Repr))
    ensures fresh(service.app.backend.Repr - old(service.app.backend.Repr))
    ensures service.AsCore() == Changed(service.app.policy.maxAttempts, old(service.AsCore()), Happens(step))
    ensures forall cl: Client | cl.chan == old(ch.chan) && cl.name == ch.name && IsOpen(cl) ::
              Took(service.app.policy.maxAttempts, old(service.AsCore()), cl, Happens(step)) == cl.(chan := ch.chan)
  {
    hide Repository.InMemoryRepository.Valid, Mock.MockBackend.Valid, EventBroker.Valid, Next, Enabled;
    service.TakeStep(step);
    assert service.app.broker.Announced();
    assert service.app.Now().feed == service.app.broker.feed;
    assert old(service.app.Now()).feed == old(service.app.broker.feed);
  }

  /** Another stream that is open, and its channel. */
  datatype Guest = Guest(name: string, ch: EventChannel)

  /** The channels of the guests of one name. */
  function Named(guests: seq<Guest>, name: string): seq<EventChannel> {
    if guests == [] then []
    else
      var last := guests[|guests| - 1];
      Named(guests[..|guests| - 1], name) + if last.name == name then [last.ch] else []
  }

  predicate DistinctGuests(guests: seq<Guest>) {
    forall i, j | 0 <= i < j < |guests| :: guests[i].ch != guests[j].ch
  }

  /** Behind those who were there before, the guests are registered, and nobody else. */
  ghost predicate Hosts(
    lists: map<string, seq<EventChannel>>, before: map<string, seq<EventChannel>>, guests: seq<Guest>) {
    && (forall n :: ListOf(lists, n) == ListOf(before, n) + Named(guests, n))
    && DistinctGuests(guests)
    && (forall g <- guests, n :: g.ch !in ListOf(before, n))
  }

  lemma {:induction false} WithoutBoth(a: seq<EventChannel>, b: seq<EventChannel>, ch: EventChannel)
    ensures Without(a + b, ch) == Without(a, ch) + Without(b, ch)
    decreases |b|
  {
    if b == [] {
      assert a + b == a;
    } else {
      assert (a + b)[..|a + b| - 1] == a + b[..|b| - 1];
      WithoutBoth(a, b[..|b| - 1], ch);
    }
  }

  lemma {:induction false} NamedAreGuests(guests: seq<Guest>, name: string, ch: EventChannel)
    ensures ch in Named(guests, name) <==> Guest(name, ch) in guests
  {
    if guests != [] {
      NamedAreGuests(guests[..|guests| - 1], name, ch);
      assert guests == guests[..|guests| - 1] + [guests[|guests| - 1]];
    }
  }

  lemma NamedOneMore(guests: seq<Guest>, g: Guest, name: string)
    ensures Named(guests + [g], name) == Named(guests, name) + if g.name == name then [g.ch] else []
  {
    assert (guests + [g])[..|guests|] == guests;
  }

  function Less(guests: seq<Guest>, k: nat): seq<Guest>
    requires k < |guests|
  {
    guests[..k] + guests[k + 1..]
  }

  lemma LastGone(front: seq<Guest>, last: Guest, name: string)
    requires DistinctGuests(front + [last])
    ensures Named(front, name) == Without(Named(front + [last], name), last.ch)
  {
    NamedOneMore(front, last, name);
    NamedAreGuests(front, name, last.ch);
    assert (front + [last])[|front|] == last && forall i | 0 <= i < |front| :: (front + [last])[i] == front[i];
    hide Named, Without;
    WithoutNobody(Named(front, name), last.ch);
    if last.name == name {
      WithoutLast(Named(front, name), last.ch);
    } else {
      assert Named(front, name) + [] == Named(front, name);
    }
  }

  /** The names' channels after a guest has gone. */
  lemma {:induction false} NamedWithout(guests: seq<Guest>, k: nat, name: string)
    requires k < |guests| && DistinctGuests(guests)
    ensures Named(Less(guests, k), name) == Without(Named(guests, name), guests[k].ch)
    decreases |guests|
  {
    hide Named, Without;
    var front, last, ch := guests[..|guests| - 1], guests[|guests| - 1], guests[k].ch;
    assert guests == front + [last];
    if k == |guests| - 1 {
      assert Less(guests, k) == front;
      LastGone(front, last, name);
    } else {
      assert Less(guests, k) == Less(front, k) + [last];
      NamedWithout(front, k, name);
      NamedOneMore(Less(front, k), last, name);
      NamedOneMore(front, last, name);
      var more := if last.name == name then [last.ch] else [];
      WithoutBoth(Named(front, name), more, ch);
      assert ch !in more;
      WithoutNobody(more, ch);
    }
  }

  lemma HostsOneMore(
    lists: map<string, seq<EventChannel>>, before: map<string, seq<EventChannel>>, guests: seq<Guest>, g: Guest)
    requires Hosts(lists, before, guests)
    requires (forall n :: g.ch !in ListOf(before, n)) && forall h <- guests :: h.ch != g.ch
    ensures Hosts(lists[g.name := ListOf(lists, g.name) + [g.ch]], before, guests + [g])
  {
    var lists' := lists[g.name := ListOf(lists, g.name) + [g.ch]];
    hide Named;
    forall n ensures ListOf(lists', n) == ListOf(before, n) + Named(guests + [g], n) {
      NamedOneMore(guests, g, n);
      assert ListOf(lists, n) == ListOf(before, n) + Named(guests, n);
    }
  }

  /** Another stream subscribes, if its volume is found. */
  method Join(app: Application.Application, ghost before: map<string, seq<EventChannel>>, guests: seq<Guest>,
              name: string, works: bool)
    returns (more: seq<Guest>)
    requires app.Valid() && Hosts(app.broker.lists, before, guests)
    modifies app.broker, app.broker.Bufs
    ensures app.Valid() && app.Now() == old(app.Now()) && fresh(app.broker.Bufs - old(app.broker.Bufs))
    ensures Hosts(app.broker.lists, before, more) && fresh(app.broker.Repr - old(app.broker.Repr))
    ensures forall g <- more :: g in guests || fresh(g.ch)
  {
    hide Application.Application.Valid, Application.Application.Now;
    hide Hosts;
    more := guests;
    ghost var lists := app.broker.lists;
    var ch := app.Subscribe(name, works);
    if ch != null {
      HostsOneMore(lists, before, guests, Guest(name, ch));
      more := guests + [Guest(name, ch)];
    }
  }

  /** Another stream ends. */
  method Quit(app: Application.Application, ghost before: map<string, seq<EventChannel>>, guests: seq<Guest>, k: nat)
    returns (rest: seq<Guest>)
    requires app.Valid() && Hosts(app.broker.lists, before, guests) && k < |guests|
    modifies app.broker, app.broker.Bufs, guests[k].ch`closed
    ensures app.Valid() && app.Now() == old(app.Now()) && app.broker.Bufs == old(app.broker.Bufs)
    ensures Hosts(app.broker.lists, before, rest) && app.broker.Repr == old(app.broker.Repr) - {guests[k].ch}
    ensures forall g <- rest :: g in guests
  {
    hide Application.Application.Valid, Application.Application.Now, Without, Named;
    var g := guests[k];
    forall n | n != g.name ensures g.ch !in Named(guests, n) {
      NamedAreGuests(guests, n, g.ch);
    }
    NamedAreGuests(guests, g.name, g.ch);
    ghost var lists := app.broker.lists;
    app.Unsubscribe(g.name, g.ch);
    forall n | n != g.name ensures ListOf(app.broker.lists, n) == ListOf(lists, n) {
      assert app.broker.Subscribers(n) == old(app.broker.Subscribers(n));
    }
    HostsLess(lists, app.broker.lists, before, guests, k);
    rest := Less(guests, k);
  }

  lemma HostsLess(
    lists: map<string, seq<EventChannel>>, lists': map<string, seq<EventChannel>>,
    before: map<string, seq<EventChannel>>, guests: seq<Guest>, k: nat)
    requires Hosts(lists, before, guests) && k < |guests|
    requires ListOf(lists', guests[k].name) == Without(ListOf(lists, guests[k].name), guests[k].ch)
    requires forall n | n != guests[k].name :: ListOf(lists', n) == ListOf(lists, n)
    requires forall n | n != guests[k].name :: guests[k].ch !in Named(guests, n)
    ensures Hosts(lists', before, Less(guests, k))
  {
    var rest := Less(guests, k);
    LessIsDistinct(guests, k);
    hide Without, Named, ListOf, Less, DistinctGuests;
    forall n ensures ListOf(lists', n) == ListOf(before, n) + Named(rest, n) {
      ListLess(ListOf(lists, n), ListOf(lists', n), ListOf(before, n), guests, k, n);
    }
  }

  lemma LessIsDistinct(guests: seq<Guest>, k: nat)
    requires k < |guests| && DistinctGuests(guests)
    ensures DistinctGuests(Less(guests, k)) && forall g <- Less(guests, k) :: g in guests
  {
  }

  /** One name's list. */
  lemma ListLess(
    list: seq<EventChannel>, list': seq<EventChannel>, before: seq<EventChannel>, guests: seq<Guest>, k: nat, n: string)
    requires k < |guests| && DistinctGuests(guests) && guests[k].ch !in before && list == before + Named(guests, n)
    requires if n == guests[k].name then list' == Without(list, guests[k].ch)
             else list' == list && guests[k].ch !in Named(guests, n)
    ensures list' == before + Named(Less(guests, k), n)
  {
    hide Without, Named;
    var ch := guests[k].ch;
    NamedWithout(guests, k, n);
    if n == guests[k].name {
      WithoutBoth(before, Named(guests, n), ch);
      WithoutNobody(before, ch);
    } else {
      WithoutNobody(Named(guests, n), ch);
    }
  }

  /** What is registered under a name is one of the broker's channels. */
  lemma RegisteredIsKnown(app: Application.Application, name: string, ch: EventChannel)
    requires app.Valid() && ch in app.broker.Subscribers(name)
    ensures ch in app.broker.Repr && ch.name == name
  {
  }

  /** Others have their turn: a step, or a stream that comes or goes. */
  method Others(
    service: Service, ch: EventChannel, ghost before: map<string, seq<EventChannel>>, guests: seq<Guest>, turn: Turn)
    returns (now: seq<Guest>)
    requires service.app.Valid() && Hosts(service.app.broker.lists, before, guests) && ch in ListOf(before, ch.name)
    requires !turn.Resumed? && !turn.Disconnected?
    requires turn.Happens? ==> Enabled(service.AsCore(), turn.step) && OnMock(turn.step)
    modifies service, service.app.repo, service.app.backend, service.app.backend.Repr
    modifies service.app.broker, service.app.broker.Repr, service.app.broker.Bufs
    ensures service.app.Valid() && fresh(service.app.repo.Repr - old(service.app.repo.Repr))
    ensures fresh(service.app.backend.Repr - old(service.app.backend.Repr))
    ensures fresh(service.app.broker.Repr - old(service.app.broker.Repr))
    ensures fresh(service.app.broker.Bufs - old(service.app.broker.Bufs))
    ensures Hosts(service.app.broker.lists, before, now)
    ensures forall g <- now :: g in guests || fresh(g.ch)
    ensures service.AsCore() == Changed(service.app.policy.maxAttempts, old(service.AsCore()), turn)
    ensures forall cl: Client | cl.chan == old(ch.chan) && cl.name == ch.name && IsOpen(cl) ::
              Took(service.app.policy.maxAttempts, old(service.AsCore()), cl, turn) == cl.(chan := ch.chan)
  {
    hide Application.Application.Valid, Application.Application.Now, Next, Enabled;
    IsRegistered(service.app, before, guests, ch);
    match turn
    case Happens(step) =>
      OthersGoOn(service, ch, step);
      now := guests;
    case Joins(name, works) =>
      now := Join(service.app, before, guests, name, works);
    case Quits(k) =>
      now := guests;
      if k < |guests| {
        GuestIsKnown(service.app, before, guests, k);
        now := Quit(service.app, before, guests, k);
      }
  }

  lemma GuestIsKnown(app: Application.Application, before: map<string, seq<EventChannel>>, guests: seq<Guest>, k: nat)
    requires app.Valid() && Hosts(app.broker.lists, before, guests) && k < |guests|
    ensures guests[k].ch in app.broker.Repr
  {
    NamedAreGuests(guests, guests[k].name, guests[k].ch);
    RegisteredIsKnown(app, guests[k].name, guests[k].ch);
  }

  lemma TurnIsLawful(max: nat, c: Core, turns: seq<Turn>, i: nat)
    requires Lawful(max, c, turns) && i < |turns|
    ensures turns[i].Happens? ==> OnMock(turns[i].step) && Enabled(CoreAfter(max, c, turns, i), turns[i].step)
    ensures OnlyOthers(turns) ==> !turns[i].Resumed? && !turns[i].Disconnected?
  {
    assert turns[i] in turns;
  }

  /** What happens between the subscription and the snapshot. */
  method Meanwhile(service: Service, ch: EventChannel, ghost before: map<string, seq<EventChannel>>,
                   ghost start: Client, early: seq<Turn>)
    returns (guests: seq<Guest>)
    requires service.app.Valid() && Hosts(service.app.broker.lists, before, []) && ch in ListOf(before, ch.name)
    requires OnlyOthers(early) && Lawful(service.app.policy.maxAttempts, service.AsCore(), early)
    requires start.chan == ch.chan && start.name == ch.name && start.phase.Subscribed?
    modifies service, service.app.repo, service.app.backend, service.app.backend.Repr
    modifies service.app.broker, service.app.broker.Repr, service.app.broker.Bufs
    ensures service.app.Valid() && fresh(service.app.repo.Repr - old(service.app.repo.Repr))
    ensures fresh(service.app.backend.Repr - old(service.app.backend.Repr))
    ensures fresh(service.app.broker.Repr - old(service.app.broker.Repr))
    ensures fresh(service.app.broker.Bufs - old(service.app.broker.Bufs))
    ensures Hosts(service.app.broker.lists, before, guests) && forall g <- guests :: fresh(g.ch)
    ensures var max := service.app.policy.maxAttempts;
            && service.AsCore() == CoreAfter(max, old(service.AsCore()), early, |early|)
            && ClientAfter(max, old(service.AsCore()), start, early, |early|) == start.(chan := ch.chan)
  {
    hide Application.Application.Valid, Application.Application.Now, Service.AsCore;
    hide Took, Changed, Enabled, Lawful, OnlyOthers, Hosts;
    ghost var max, c := service.app.policy.maxAttempts, service.AsCore();
    guests := [];
    for i := 0 to |early|
      invariant service.app.Valid() && fresh(service.app.repo.Repr - old(service.app.repo.Repr))
      invariant fresh(service.app.backend.Repr - old(service.app.backend.Repr))
      invariant fresh(service.app.broker.Repr - old(service.app.broker.Repr))
      invariant fresh(service.app.broker.Bufs - old(service.app.broker.Bufs))
      invariant Hosts(service.app.broker.lists, before, guests) && forall g <- guests :: fresh(g.ch)
      invariant service.AsCore() == CoreAfter(max, c, early, i)
      invariant ClientAfter(max, c, start, early, i) == start.(chan := ch.chan)
    {
      TurnIsLawful(max, c, early, i);
      guests := Others(service, ch, before, guests, early[i]);
    }
  }

  /** Takes the oldest event off the queue. */
  method Receive(app: Application.Application, ch: EventChannel) returns (e: StateEvent)
    requires app.Valid() && ch in app.broker.Repr && ch.chan.queue != []
    modifies ch
    ensures app.Valid() && app.Now() == old(app.Now()) && e == old(ch.chan).queue[0] && ch.chan == Take(old(ch.chan))
  {
    hide Repository.InMemoryRepository.Valid, Repository.InMemoryRepository.Contents;
    hide Mock.MockBackend.Valid, Mock.MockBackend.Contents, ChanOk, Published, Enrolled, EventBroker.Shown;
    e := ch.Receive();
  }

  /** Whether the queue is empty. */
  method HasNothing(app: Application.Application, ch: EventChannel) returns (empty: bool)
    requires app.Valid() && ch in app.broker.Repr
    ensures empty == (ch.chan.queue == [])
  {
    empty := ch.queue == [];
  }

  /** Receives the next event, if one is queued, and writes its frames. */
  method ReadNext(app: Application.Application, ch: EventChannel, ghost cl: Client, frames: seq<Frame>, writes: nat)
    returns (out: seq<Frame>, phase: Phase)
    requires app.Valid() && ch in app.broker.Repr
    requires cl.chan == ch.chan && cl.frames == frames && cl.phase.Draining?
    modifies ch
    ensures app.Valid() && app.Now() == old(app.Now())
    ensures forall max, c :: Took(max, c, cl, Resumed(writes)) == cl.(chan := ch.chan, frames := out, phase := phase)
    ensures !phase.Subscribed?
  {
    hide Application.Application.Valid, Application.Application.Now;
    var empty := HasNothing(app, ch);
    if empty {
      return frames, Draining;
    }
    var e := Receive(app, ch);
    out, phase := Write(frames, AsMessage(e), writes);
  }

  /** One turn of a stream that drains, or that has ended. */
  method OneTurn(service: Service, ch: EventChannel, ghost before: map<string, seq<EventChannel>>, guests: seq<Guest>,
                 ghost cl: Client, frames: seq<Frame>, phase: Phase, turn: Turn)
    returns (out: seq<Frame>, now: Phase, rest: seq<Guest>)
    requires service.app.Valid() && Hosts(service.app.broker.lists, before, guests) && ch in ListOf(before, ch.name)
    requires turn.Happens? ==> OnMock(turn.step) && Enabled(service.AsCore(), turn.step)
    requires cl.name == ch.name && cl.frames == frames && cl.phase == phase && !phase.Subscribed?
    requires phase.Draining? ==> cl.chan == ch.chan
    modifies service, service.app.repo, service.app.backend, service.app.backend.Repr
    modifies service.app.broker, service.app.broker.Repr, service.app.broker.Bufs
    ensures service.app.Valid() && fresh(service.app.repo.Repr - old(service.app.repo.Repr))
    ensures fresh(service.app.backend.Repr - old(service.app.backend.Repr))
    ensures fresh(service.app.broker.Repr - old(service.app.broker.Repr))
    ensures fresh(service.app.broker.Bufs - old(service.app.broker.Bufs))
    ensures Hosts(service.app.broker.lists, before, rest) && forall g <- rest :: g in guests || fresh(g.ch)
    ensures service.AsCore() == Changed(service.app.policy.maxAttempts, old(service.AsCore()), turn)
    ensures var cl' := Took(service.app.policy.maxAttempts, old(service.AsCore()), cl, turn);
            && cl'.(chan := cl.chan) == cl.(frames := out, phase := now) && !now.Subscribed?
            && (now.Draining? ==> cl'.chan == ch.chan)
  {
    hide Application.Application.Valid, Application.Application.Now, Took, Changed, Enabled, Hosts;
    ghost var max, c := service.app.policy.maxAttempts, service.AsCore();
    out, now, rest := frames, phase, guests;
    if !phase.Draining? {
      ClosedStays(max, c, cl, turn);
    }
    match turn
    case Resumed(writes) =>
      StaysAsItIs(max, c, turn);
      if phase.Draining? {
        IsRegistered(service.app, before, guests, ch);
        out, now := ReadNext(service.app, ch, cl, frames, writes);
      }
    case Disconnected =>
      StaysAsItIs(max, c, turn);
      LeavesStream(max, c, cl);
      now := if phase.Draining? then Gone else phase;
    case _ =>
      rest := Others(service, ch, before, guests, turn);
  }

  /** Drains the queue, turn by turn, until the stream ends; then others go on without it. */
  method Drain(service: Service, ch: EventChannel, ghost before: map<string, seq<EventChannel>>, guests: seq<Guest>,
               ghost start: Client, frames: seq<Frame>, phase: Phase, turns: seq<Turn>)
    returns (out: seq<Frame>, rest: seq<Guest>)
    requires service.app.Valid() && Hosts(service.app.broker.lists, before, guests) && ch in ListOf(before, ch.name)
    requires Lawful(service.app.policy.maxAttempts, service.AsCore(), turns)
    requires start.chan == ch.chan && start.name == ch.name && start.frames == frames && start.phase == phase
    requires !phase.Subscribed?
    modifies service, service.app.repo, service.app.backend, service.app.backend.Repr
    modifies service.app.broker, service.app.broker.Repr, service.app.broker.Bufs
    ensures service.app.Valid() && fresh(service.app.repo.Repr - old(service.app.repo.Repr))
    ensures fresh(service.app.backend.Repr - old(service.app.backend.Repr))
    ensures fresh(service.app.broker.Repr - old(service.app.broker.Repr))
    ensures fresh(service.app.broker.Bufs - old(service.app.broker.Bufs))
    ensures Hosts(service.app.broker.lists, before, rest) && forall g <- rest :: g in guests || fresh(g.ch)
    ensures var max := service.app.policy.maxAttempts;
            && service.AsCore() == CoreAfter(max, old(service.AsCore()), turns, |turns|)
            && out == ClientAfter(max, old(service.AsCore()), start, turns, |turns|).frames
  {
    hide Application.Application.Valid, Application.Application.Now, Service.AsCore;
    hide Took, Changed, Enabled, Hosts, Lawful, CoreAfter, ClientAfter;
    ghost var max, c := service.app.policy.maxAttempts, service.AsCore();
    AfterNone(max, c, start, turns);
    var now := phase;
    out, rest := frames, guests;
    for i := 0 to |turns|
      invariant service.app.Valid() && fresh(service.app.repo.Repr - old(service.app.repo.Repr))
      invariant fresh(service.app.backend.Repr - old(service.app.backend.Repr))
      invariant fresh(service.app.broker.Repr - old(service.app.broker.Repr))
      invariant fresh(service.app.broker.Bufs - old(service.app.broker.Bufs))
      invariant Hosts(service.app.broker.lists, before, rest) && forall g <- rest :: g in guests || fresh(g.ch)
      invariant !now.Subscribed? && service.AsCore() == CoreAfter(max, c, turns, i)
      invariant ClientAfter(max, c, start, turns, i).(chan := start.chan) == start.(frames := out, phase := now)
      invariant now.Draining? ==> ch.chan == ClientAfter(max, c, start, turns, i).chan
    {
      TurnIsLawful(max, c, turns, i);
      AfterOneMore(max, c, start, turns, i);
      out, now, rest := OneTurn(service, ch, before, rest, ClientAfter(max, c, start, turns, i), out, now, turns[i]);
    }
  }

  lemma AfterNone(max: nat, c: Core, cl: Client, turns: seq<Turn>)
    ensures CoreAfter(max, c, turns, 0) == c && ClientAfter(max, c, cl, turns, 0) == cl
  {
  }

  lemma AfterOneMore(max: nat, c: Core, cl: Client, turns: seq<Turn>, i: nat)
    requires i < |turns|
    ensures var core := CoreAfter(max, c, turns, i);
            && CoreAfter(max, c, turns, i + 1) == Changed(max, core, turns[i])
            && ClientAfter(max, c, cl, turns, i + 1) == Took(max, core, ClientAfter(max, c, cl, turns, i), turns[i])
  {
  }

  lemma ClosedStays(max: nat, c: Core, cl: Client, turn: Turn)
    requires !IsOpen(cl)
    ensures Took(max, c, cl, turn) == cl
  {
  }

  lemma LeavesStream(max: nat, c: Core, cl: Client)
    ensures Took(max, c, cl, Disconnected) == if IsOpen(cl) then cl.(phase := Gone) else cl
  {
  }

  lemma IsRegistered(app: Application.Application, before: map<string, seq<EventChannel>>, guests: seq<Guest>,
                     ch: EventChannel)
    requires app.Valid() && Hosts(app.broker.lists, before, guests) && ch in ListOf(before, ch.name)
    ensures ch in app.broker.Repr
  {
    RegisteredIsKnown(app, ch.name, ch);
  }

  lemma StaysAsItIs(max: nat, c: Core, turn: Turn)
    requires !turn.Happens?
    ensures Changed(max, c, turn) == c
  {
  }

  /** Reads the record and writes the state found, if any. */
  method Look(app: Application.Application, ghost cl: Client, name: string, looks: bool, writes: nat)
    returns (frames: seq<Frame>, phase: Phase)
    requires app.Valid() && cl.name == name && cl.frames == [] && cl.phase.Subscribed?
    ensures var cl' := TakeSnapshot(cl, app.Now(), looks, writes);
            && frames == cl'.frames && phase == cl'.phase && cl'.chan == cl.chan && cl'.name == name
            && !phase.Subscribed?
  {
    frames, phase := [], Draining;
    var v := app.Load(name, looks);
    if v != null {
      frames, phase := Write(frames, Message(name, v.state, None), writes);
    }
  }

  /** Everything between the subscription and its end. */
  method Follow(
    service: Service, ghost before: map<string, seq<EventChannel>>, name: string, ch: EventChannel, course: Course)
    returns (frames: seq<Frame>, guests: seq<Guest>)
    requires service.app.Valid() && Orderly(service.app.policy.maxAttempts, service.AsCore(), course)
    requires Hosts(service.app.broker.lists, before, []) && ch in ListOf(before, name) && ch.name == name
    requires ch.chan == NEW_CHAN
    modifies service, service.app.repo, service.app.backend, service.app.backend.Repr
    modifies service.app.broker, service.app.broker.Repr, service.app.broker.Bufs
    ensures service.app.Valid() && fresh(service.app.repo.Repr - old(service.app.repo.Repr))
    ensures fresh(service.app.backend.Repr - old(service.app.backend.Repr))
    ensures fresh(service.app.broker.Repr - old(service.app.broker.Repr))
    ensures fresh(service.app.broker.Bufs - old(service.app.broker.Bufs))
    ensures Hosts(service.app.broker.lists, before, guests) && forall g <- guests :: fresh(g.ch)
    ensures var max := service.app.policy.maxAttempts;
            && service.AsCore() == CoreEnded(max, old(service.AsCore()), course)
            && frames == Streamed(max, old(service.AsCore()), name, course).frames
  {
    hide Application.Application.Valid, Application.Application.Now;
    hide CoreAfter, ClientAfter, TakeSnapshot, Lawful, Hosts;
    ghost var max, c := service.app.policy.maxAttempts, service.AsCore();
    guests := Meanwhile(service, ch, before, Subscriber(name, c.world), course.early);
    ghost var cl := ClientAfter(max, c, Subscriber(name, c.world), course.early, |course.early|);
    var phase;
    frames, phase := Look(service.app, cl, name, course.looks, course.writes);
    ghost var seen := ClientLooked(max, c, name, course);
    frames, guests := Drain(service, ch, before, guests, seen, frames, phase, course.turns);
  }

  /** The stream's own channel was registered behind the others of its name. */
  ghost predicate AddedTo(
    before: map<string, seq<EventChannel>>, during: map<string, seq<EventChannel>>, name: string, ch: EventChannel)
  {
    && during == before[name := ListOf(before, name) + [ch]]
    && forall n :: ch !in ListOf(before, n)
  }

  lemma NobodyCameYet(
    before: map<string, seq<EventChannel>>, during: map<string, seq<EventChannel>>, name: string, ch: EventChannel)
    requires AddedTo(before, during, name, ch)
    ensures Hosts(before, before, []) && Hosts(during, during, []) && ch in ListOf(during, name)
  {
  }

  /** It is taken out, and all others stay as they are. */
  method Leave(app: Application.Application, name: string, ch: EventChannel,
               ghost before: map<string, seq<EventChannel>>, ghost during: map<string, seq<EventChannel>>,
               ghost guests: seq<Guest>)
    requires app.Valid() && AddedTo(before, during, name, ch) && Hosts(app.broker.lists, during, guests)
    modifies app.broker`subscribers, app.broker`lists, app.broker`Repr, app.broker.Bufs, ch`closed
    ensures app.Valid() && app.Now() == old(app.Now()) && app.broker.Bufs == old(app.broker.Bufs)
    ensures app.broker.Repr == old(app.broker.Repr) - {ch} && ch.closed
    ensures Hosts(app.broker.lists, before, guests)
  {
    hide Application.Application.Valid, Application.Application.Now, Hosts, AddedTo;
    ghost var lists := app.broker.lists;
    StillListed(lists, before, during, guests, name, ch);
    app.Unsubscribe(name, ch);
    forall n | n != name ensures ListOf(app.broker.lists, n) == ListOf(lists, n) {
      assert app.broker.Subscribers(n) == old(app.broker.Subscribers(n));
    }
    HostsOneLess(lists, app.broker.lists, before, during, guests, name, ch);
  }

  lemma StillListed(
    lists: map<string, seq<EventChannel>>, before: map<string, seq<EventChannel>>,
    during: map<string, seq<EventChannel>>, guests: seq<Guest>, name: string, ch: EventChannel)
    requires AddedTo(before, during, name, ch) && Hosts(lists, during, guests)
    ensures ch in ListOf(lists, name)
  {
  }

  lemma HostsOneLess(
    lists: map<string, seq<EventChannel>>, lists': map<string, seq<EventChannel>>,
    before: map<string, seq<EventChannel>>, during: map<string, seq<EventChannel>>,
    guests: seq<Guest>, name: string, ch: EventChannel)
    requires AddedTo(before, during, name, ch) && Hosts(lists, during, guests)
    requires ListOf(lists', name) == Without(ListOf(lists, name), ch)
    requires forall n | n != name :: ListOf(lists', n) == ListOf(lists, n)
    ensures Hosts(lists', before, guests)
  {
    hide Without, Named;
    var others := ListOf(before, name);
    assert ch in ListOf(during, name);
    WithoutBoth(others + [ch], Named(guests, name), ch);
    WithoutLast(others, ch);
    NamedAreGuests(guests, name, ch);
    WithoutNobody(Named(guests, name), ch);
    forall g, n | g in guests ensures g.ch !in ListOf(before, n) {
      assert g.ch !in ListOf(during, n);
    }
    forall n ensures ListOf(lists', n) == ListOf(before, n) + Named(guests, n) {
      assert ListOf(lists, n) == ListOf(during, n) + Named(guests, n);
    }
  }

  /** Until the snapshot only others act; and every step can be taken when its turn comes. */
  ghost predicate Orderly(max: nat, c: Core, course: Course) {
    && OnlyOthers(course.early) && Lawful(max, c, course.early)
    && Lawful(max, CoreLooked(max, c, course), course.turns)
  }

  /** With the channel registered: everything up to the end, and the way out. */
  method StreamOn(
    service: Service, ghost before: map<string, seq<EventChannel>>, name: string, ch: EventChannel, course: Course)
    returns (frames: seq<Frame>, guests: seq<Guest>)
    requires service.app.Valid() && Orderly(service.app.policy.maxAttempts, service.AsCore(), course)
    requires AddedTo(before, service.app.broker.lists, name, ch) && ch.name == name && ch.chan == NEW_CHAN
    modifies service, service.app.repo, service.app.backend, service.app.backend.Repr
    modifies service.app.broker, service.app.broker.Repr, service.app.broker.Bufs
    ensures service.app.Valid() && fresh(service.app.repo.Repr - old(service.app.repo.Repr))
    ensures fresh(service.app.backend.Repr - old(service.app.backend.Repr))
    ensures fresh(service.app.broker.Repr - old(service.app.broker.Repr))
    ensures fresh(service.app.broker.Bufs - old(service.app.broker.Bufs))
    ensures Hosts(service.app.broker.lists, before, guests) && forall g <- guests :: fresh(g.ch)
    ensures var max := service.app.policy.maxAttempts;
            && service.AsCore() == CoreEnded(max, old(service.AsCore()), course)
            && frames == Streamed(max, old(service.AsCore()), name, course).frames
  {
    hide Application.Application.Valid, Application.Application.Now;
    hide Streamed, CoreEnded, Orderly, Hosts, AddedTo;
    ghost var during := service.app.broker.lists;
    NobodyCameYet(before, during, name, ch);
    IsRegistered(service.app, during, [], ch);
    frames, guests := Follow(service, during, name, ch, course);
    Leave(service.app, name, ch, before, during, guests);
  }

  /** The stream's own channel, registered behind the others of its name. */
  method Enlist(app: Application.Application, name: string, works: bool) returns (ch: EventChannel?)
    requires app.Valid()
    modifies app.broker, app.broker.Bufs
    ensures app.Valid() && app.Now() == old(app.Now()) && fresh(app.broker.Bufs - old(app.broker.Bufs))
    ensures (ch != null) == Load(old(app.Now()), name, works).Some?
    ensures ch == null ==> app.broker.Repr == old(app.broker.Repr) && Hosts(app.broker.lists, old(app.broker.lists), [])
    ensures ch != null ==>
              && fresh(ch) && ch.chan == NEW_CHAN && ch.name == name && app.broker.Repr == old(app.broker.Repr) + {ch}
              && AddedTo(old(app.broker.lists), app.broker.lists, name, ch)
  {
    hide Application.Application.Valid, Application.Application.Now;
    ch := app.Subscribe(name, works);
  }

  /**
   Subscribes before it looks, so that nothing published in between is missed; unsubscribes
   however the stream ends.  A volume that is not found has no stream.
   */
  method StreamVolumeEvents(service: Service, name: string, course: Course)
    returns (ok: bool, frames: seq<Frame>, guests: seq<Guest>)
    requires service.app.Valid() && Orderly(service.app.policy.maxAttempts, service.AsCore(), course)
    modifies service, service.app.repo, service.app.backend, service.app.backend.Repr
    modifies service.app.broker, service.app.broker.Repr, service.app.broker.Bufs
    ensures service.app.Valid() && fresh(service.app.repo.Repr - old(service.app.repo.Repr))
    ensures fresh(service.app.backend.Repr - old(service.app.backend.Repr))
    ensures fresh(service.app.broker.Repr - old(service.app.broker.Repr))
    ensures fresh(service.app.broker.Bufs - old(service.app.broker.Bufs))
    ensures Hosts(service.app.broker.lists, old(service.app.broker.lists), guests) && forall g <- guests :: fresh(g.ch)
    ensures ok == Load(old(service.AsCore()).world, name, course.subscribes).Some?
    ensures var max := service.app.policy.maxAttempts;
            if ok then
              && service.AsCore() == CoreEnded(max, old(service.AsCore()), course)
              && frames == Streamed(max, old(service.AsCore()), name, course).frames
            else service.AsCore() == old(service.AsCore()) && frames == [] && guests == []
  {
    hide Application.Application.Valid, Application.Application.Now;
    hide Load, Streamed, CoreEnded, Orderly, Hosts, AddedTo;
    ghost var before := service.app.broker.lists;
    var ch := Enlist(service.app, name, course.subscribes);
    guests := [];
    if ch == null {
      return false, [], [];
    }
    assert service.AsCore() == old(service.AsCore());
    frames, guests := StreamOn(service, before, name, ch, course);
    ok := true;
  }

  lemma WithoutLast(others: seq<EventChannel>, ch: EventChannel)
    ensures ch !in others ==> Without(others + [ch], ch) == others
  {
    assert (others + [ch])[..|others|] == others;
    if ch !in others {
      WithoutNobody(others, ch);
    }
  }
}
