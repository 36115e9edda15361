/** Publish and subscribe: bounded channels registered by volume name. */
module Broker {
  import opened Lifecycle
  import opened Channel

  /** A channel with room for 16 events; its history is ghost. */
  class EventChannel {
    var queue: seq<StateEvent>
    var closed: bool
    ghost var chan: Chan
    /** The name it is made for, and how much had been published then. */
    ghost const name: string
    ghost const since: nat

    ghost predicate Valid()
      reads this
    {
      chan.queue == queue && ChanOk(chan)
    }

    constructor (ghost name: string, ghost since: nat)
      ensures Valid() && !closed && chan == NEW_CHAN && this.name == name && this.since == since
    {
      queue, closed, chan := [], false, NEW_CHAN;
      this.name, this.since := name, since;
    }

    /** Never blocks.  Sending on a closed channel would panic. */
    method TrySend(e: StateEvent)
      requires Valid() && !closed
      modifies `queue, `chan
      ensures Valid() && chan == Offer(old(chan), e)
      ensures queue == if |old(queue)| < 16 then old(queue) + [e] else old(queue)
    {
      OfferOk(chan, e);
      chan := Offer(chan, e);
      if |queue| < CAPACITY {
        queue := queue + [e];
      }
    }

    method Receive() returns (e: StateEvent)
      requires Valid() && queue != []
      modifies `queue, `chan
      ensures Valid() && e == old(queue)[0] && chan == Take(old(chan)) && queue == old(queue)[1..]
    {
      TakeOk(chan);
      chan := Take(chan);
      e := queue[0];
      queue := queue[1..];
    }

    /** Closing twice would panic. */
    method Close()
      requires Valid() && !closed
      modifies this`closed
      ensures Valid() && closed
    {
      closed := true;
    }
  }

  /** A slice of channels: a backing array, of which the first `len` slots are in use. */
  datatype Slice = Slice(buf: array<EventChannel>, len: nat)

  /** Appends in place while there is room; otherwise to a longer copy. */
  method Append(s: Slice, ch: EventChannel) returns (r: Slice)
    requires s.len <= s.buf.Length
    modifies s.buf
    ensures r.len == s.len + 1 <= r.buf.Length && r.buf[..r.len] == old(s.buf[..s.len]) + [ch]
    ensures r.buf == s.buf || fresh(r.buf)
  {
    if s.len < s.buf.Length {
      s.buf[s.len] := ch;
      return Slice(s.buf, s.len + 1);
    }
    var longer := new EventChannel[2 * s.len + 1](_ => ch);
    for i := 0 to s.len
      invariant longer[..i] == s.buf[..i] && longer[s.len] == ch
      invariant s.buf[..] == old(s.buf[..])
    {
      longer[i] := s.buf[i];
    }
    r := Slice(longer, s.len + 1);
  }

  /** Closes the gap in place: everything behind it moves down by one slot. */
  method Remove(s: Slice, gap: nat) returns (r: Slice)
    requires gap < s.len <= s.buf.Length
    modifies s.buf
    ensures r == Slice(s.buf, s.len - 1)
    ensures forall k | 0 <= k < r.len :: r.buf[k] == if k < gap then old(s.buf[k]) else old(s.buf[k + 1])
  {
    var j := gap;
    while j + 1 < s.len
      invariant gap <= j < s.len
      invariant forall k | 0 <= k < j :: s.buf[k] == if k < gap then old(s.buf[k]) else old(s.buf[k + 1])
      invariant forall k | j <= k < s.len :: s.buf[k] == old(s.buf[k])
    {
      s.buf[j] := s.buf[j + 1];
      j := j + 1;
    }
    r := Slice(s.buf, s.len - 1);
  }

  /** The others, in their order. */
  function Without(chs: seq<EventChannel>, ch: EventChannel): seq<EventChannel> {
    if chs == [] then []
    else Without(chs[..|chs| - 1], ch) + if chs[|chs| - 1] == ch then [] else [chs[|chs| - 1]]
  }

  lemma {:induction false} WithoutNobody(chs: seq<EventChannel>, ch: EventChannel)
    requires ch !in chs
    ensures Without(chs, ch) == chs
    decreases |chs|
  {
    if chs != [] {
      WithoutNobody(chs[..|chs| - 1], ch);
      assert chs == chs[..|chs| - 1] + [chs[|chs| - 1]];
    }
  }

  /** Closing the gap leaves the others. */
  lemma {:induction false} WithoutOne(chs: seq<EventChannel>, gap: nat)
    requires gap < |chs| && Distinct(chs)
    ensures Without(chs, chs[gap]) == chs[..gap] + chs[gap + 1..]
    decreases |chs|
  {
    var front := chs[..|chs| - 1];
    if gap == |chs| - 1 {
      WithoutNobody(front, chs[gap]);
    } else {
      WithoutOne(front, gap);
      assert chs[gap + 1..] == front[gap + 1..] + [chs[|chs| - 1]];
    }
  }

  /** The same, on what the slice shows. */
  method Cut(s: Slice, gap: nat, ghost chs: seq<EventChannel>) returns (r: Slice)
    requires Shows(s, chs) && gap < s.len
    modifies s.buf
    ensures r.buf == s.buf && Shows(r, chs[..gap] + chs[gap + 1..])
  {
    assert forall k | 0 <= k < s.len :: s.buf[k] == chs[k];
    r := Remove(s, gap);
    assert r.buf[..r.len] == chs[..gap] + chs[gap + 1..];
  }

  predicate Distinct(chs: seq<EventChannel>) {
    forall i, j | 0 <= i < j < |chs| :: chs[i] != chs[j]
  }

  /** The slots in use hold these channels. */
  ghost predicate Shows(s: Slice, chs: seq<EventChannel>)
    reads s.buf
  {
    s.len == |chs| && s.len <= s.buf.Length && s.buf[..s.len] == chs
  }

  lemma {:induction false} WithoutLeavesOthers(chs: seq<EventChannel>, ch: EventChannel)
    ensures forall x :: x in Without(chs, ch) <==> x in chs && x != ch
    ensures Distinct(chs) ==> Distinct(Without(chs, ch))
    decreases |chs|
  {
    if chs != [] {
      var front, last := chs[..|chs| - 1], chs[|chs| - 1];
      WithoutLeavesOthers(front, ch);
      assert chs == front + [last];
      if Distinct(chs) {
        assert Distinct(front) && last !in front;
      }
    }
  }

  function ListOf(lists: map<string, seq<EventChannel>>, name: string): seq<EventChannel> {
    if name in lists then lists[name] else []
  }

  /** These channels are listed, each once and under its own name, and no others. */
  ghost predicate Enrolled(lists: map<string, seq<EventChannel>>, chs: set<EventChannel>) {
    && (forall n <- lists :: Distinct(lists[n]))
    && (forall n <- lists, ch <- lists[n] :: ch in chs && ch.name == n)
    && (forall ch <- chs :: ch in ListOf(lists, ch.name))
  }

  lemma Enroll(lists: map<string, seq<EventChannel>>, chs: set<EventChannel>, ch: EventChannel)
    requires Enrolled(lists, chs) && ch !in chs
    ensures Enrolled(lists[ch.name := ListOf(lists, ch.name) + [ch]], chs + {ch})
    ensures ch !in ListOf(lists, ch.name)
  {
  }

  lemma EnrolledOnce(lists: map<string, seq<EventChannel>>, chs: set<EventChannel>, name: string)
    requires Enrolled(lists, chs)
    ensures Distinct(ListOf(lists, name)) && forall ch <- ListOf(lists, name) :: ch in chs && ch.name == name
  {
  }

  /** The lists after a channel is taken out of one of them. */
  ghost predicate TakenOut(
    lists: map<string, seq<EventChannel>>, lists': map<string, seq<EventChannel>>, name: string, ch: EventChannel) {
    && lists'.Keys == lists.Keys
    && ListOf(lists', name) == Without(ListOf(lists, name), ch)
    && forall n <- lists | n != name :: lists'[n] == lists[n]
  }

  lemma Dismiss(lists: map<string, seq<EventChannel>>, lists': map<string, seq<EventChannel>>, chs: set<EventChannel>,
                name: string, ch: EventChannel)
    requires Enrolled(lists, chs) && TakenOut(lists, lists', name, ch)
    ensures Enrolled(lists', if ch in ListOf(lists, name) then chs - {ch} else chs)
    ensures ch in ListOf(lists, name) ==> ch in chs
  {
    WithoutLeavesOthers(ListOf(lists, name), ch);
    if ch !in ListOf(lists, name) {
      WithoutNobody(ListOf(lists, name), ch);
      assert lists' == lists;
    } else {
      assert ch.name == name && lists'[name] == Without(lists[name], ch);
    }
  }

  /** The slot of the channel, or the number of slots in use. */
  method Find(s: Slice, ghost chs: seq<EventChannel>, ch: EventChannel) returns (i: nat)
    requires Shows(s, chs)
    ensures i <= s.len && ch !in chs[..i] && (i < s.len ==> chs[i] == ch)
  {
    i := 0;
    while i < s.len
      invariant i <= s.len && ch !in chs[..i]
    {
      assert s.buf[i] == chs[i] && chs[..i + 1] == chs[..i] + [chs[i]];
      if s.buf[i] == ch {
        return;
      }
      i := i + 1;
    }
  }

  class EventBroker {
    var subscribers: map<string, Slice>
    /** What the slices show, the channels in them, the arrays behind them, and everything ever published. */
    ghost var lists: map<string, seq<EventChannel>>
    ghost var Repr: set<EventChannel>
    ghost var Bufs: set<array<EventChannel>>
    ghost var feed: seq<StateEvent>

    ghost function Subscribers(name: string): seq<EventChannel>
      reads `lists
    {
      ListOf(lists, name)
    }

    /** The slices show the lists, and share no array. */
    ghost predicate Shown()
      reads `subscribers, `lists, `Bufs, Bufs
    {
      && subscribers.Keys == lists.Keys
      && (forall n <- subscribers :: subscribers[n].buf in Bufs && Shows(subscribers[n], lists[n]))
      && (forall m, n | m in subscribers && n in subscribers && m != n :: subscribers[m].buf != subscribers[n].buf)
    }

    /** An open channel that was sent exactly what was published under its name since it was made. */
    ghost predicate Informed(ch: EventChannel)
      reads `feed, ch
    {
      ch.Valid() && !ch.closed && ch.since <= |feed| && ch.chan.sent == Published(feed, ch.since, ch.name)
    }

    ghost predicate Valid()
      reads this, Repr, Bufs
    {
      Shown() && Enrolled(lists, Repr) && forall ch <- Repr :: Informed(ch)
    }

    /** Every channel was offered what has been published since, if its name is the event's, and nothing else. */
    twostate predicate Announced()
      reads this, Repr
    {
      && Repr == old(Repr) && lists == old(lists)
      && old(feed) <= feed && |feed| <= |old(feed)| + 1
      && forall ch <- Repr ::
           ch.chan == if |feed| > |old(feed)| && ch.name == feed[|old(feed)|].name
                      then Offer(old(ch.chan), feed[|old(feed)|])
                      else old(ch.chan)
    }

    constructor ()
      ensures Valid() && lists == map[] && Repr == {} && Bufs == {} && feed == []
    {
      subscribers, lists, Repr, Bufs, feed := map[], map[], {}, {}, [];
    }

    /** Offers the event to every subscriber of the name, in order, and to no other. */
    method Publish(name: string, e: StateEvent)
      requires Valid() && e.name == name
      modifies this`feed, Repr
      ensures Valid() && feed == old(feed) + [e] && Announced()
      ensures forall ch <- Repr :: ch.chan == if ch in Subscribers(name) then Offer(old(ch.chan), e) else old(ch.chan)
    {
      OfferAll(name, e);
      feed := feed + [e];
      forall ch | ch in Repr ensures Informed(ch) {
        assert old(Informed(ch));
        PublishedAppend(old(feed), e, ch.since, ch.name);
      }
    }

    /** The loop over the subscribers of a name. */
    method OfferAll(name: string, e: StateEvent)
      requires Shown() && Enrolled(lists, Repr) && forall ch <- Repr :: ch.Valid() && !ch.closed
      modifies Repr
      ensures forall ch <- Repr :: ch.Valid() && !ch.closed
      ensures forall ch <- Repr :: ch.chan == if ch.name == name then Offer(old(ch.chan), e) else old(ch.chan)
    {
      hide ChanOk, Offer;
      if name !in subscribers {
        return;
      }
      EnrolledOnce(lists, Repr, name);
      var s := subscribers[name];
      ghost var subs := lists[name];
      hide Enrolled;
      for i := 0 to s.len
        invariant forall ch <- Repr :: ch.Valid() && !ch.closed
        invariant forall ch <- Repr :: ch.chan == if ch in subs[..i] then Offer(old(ch.chan), e) else old(ch.chan)
      {
        assert s.buf[i] == subs[i] && subs[..i + 1] == subs[..i] + [subs[i]];
        s.buf[i].TrySend(e);
      }
      assert subs[..s.len] == subs;
    }

    method Subscribe(name: string) returns (ch: EventChannel)
      requires Valid()
      modifies `subscribers, `lists, `Repr, `Bufs, Bufs
      ensures Valid() && fresh(ch) && ch.chan == NEW_CHAN && !ch.closed && ch.name == name && ch.since == |feed|
      ensures Repr == old(Repr) + {ch} && fresh(Bufs - old(Bufs))
      ensures lists == old(lists)[name := old(Subscribers(name)) + [ch]]
    {
      hide ChanOk, Published, Shown, Enrolled;
      PublishedNothing(feed, name);
      ch := new EventChannel(name, |feed|);
      Enroll(lists, Repr, ch);
      Register(name, ch);
      Repr := Repr + {ch};
    }

    /** Appends to the slice of the name, which may have to move. */
    method Register(name: string, ch: EventChannel)
      requires Shown()
      modifies `subscribers, `lists, `Bufs, Bufs
      ensures Shown() && fresh(Bufs - old(Bufs))
      ensures lists == old(lists)[name := old(Subscribers(name)) + [ch]]
    {
      var s;
      if name in subscribers {
        s := Append(subscribers[name], ch);
      } else {
        var buf := new EventChannel[1](_ => ch);
        s := Slice(buf, 1);
      }
      assert Shows(s, Subscribers(name) + [ch]);
      subscribers, lists, Bufs := subscribers[name := s], lists[name := Subscribers(name) + [ch]], Bufs + {s.buf};
    }

    /** Removes and closes the channel if it is registered under the name; the others keep their order. */
    method Unsubscribe(name: string, ch: EventChannel)
      requires Valid()
      modifies `subscribers, `lists, `Repr, Bufs, ch`closed
      ensures Valid() && Bufs == old(Bufs)
      ensures Subscribers(name) == Without(old(Subscribers(name)), ch)
      ensures forall n | n != name :: Subscribers(n) == old(Subscribers(n))
      ensures if ch in old(Subscribers(name)) then ch.closed && Repr == old(Repr) - {ch}
              else ch.closed == old(ch.closed) && Repr == old(Repr)
    {
      hide ChanOk, Published, Shown, Without, Enrolled;
      EnrolledOnce(lists, Repr, name);
      var found := Unregister(name, ch);
      Dismiss(old(lists), lists, Repr, name, ch);
      if found {
        Repr := Repr - {ch};
        ch.Close();
      }
    }

    /** Finds the channel in the slice of the name, and closes the gap that it leaves. */
    method Unregister(name: string, ch: EventChannel) returns (found: bool)
      requires Shown() && Distinct(Subscribers(name))
      modifies `subscribers, `lists, Bufs
      ensures Shown() && found == (ch in old(Subscribers(name)))
      ensures TakenOut(old(lists), lists, name, ch)
    {
      hide Shown, Without;
      ghost var subs := Subscribers(name);
      var i := Search(name, ch);
      found := i >= 0;
      if found {
        WithoutOne(subs, i);
        CutOut(name, i);
      } else {
        WithoutNobody(subs, ch);
      }
    }

    /** The slot of the channel, or -1. */
    method Search(name: string, ch: EventChannel) returns (i: int)
      requires Shown()
      ensures if i < 0 then ch !in Subscribers(name) else i < |Subscribers(name)| && Subscribers(name)[i] == ch
    {
      i := -1;
      if name in subscribers {
        var s := subscribers[name];
        var k := Find(s, lists[name], ch);
        if k < s.len {
          return k;
        }
        assert lists[name][..s.len] == lists[name];
      }
    }

    /** Takes one slot out of the slice of a name. */
    method CutOut(name: string, gap: nat)
      requires Shown() && gap < |Subscribers(name)|
      modifies `subscribers, `lists, Bufs
      ensures Shown()
      ensures lists == old(lists)[name := old(Subscribers(name))[..gap] + old(Subscribers(name))[gap + 1..]]
    {
      ghost var subs := lists[name];
      var r := Cut(subscribers[name], gap, subs);
      subscribers, lists := subscribers[name := r], lists[name := subs[..gap] + subs[gap + 1..]];
    }
  }
}
