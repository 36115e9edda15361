/** A subscriber's bounded queue, as a value, and what it loses. */
module Channel {
  import opened Lifecycle

  const CAPACITY := 16

  /**
   `queue` waits to be received.  The rest is history: everything published while
   subscribed, everything received, and how many sends found the queue full.
   */
  datatype Chan = Chan(queue: seq<StateEvent>, sent: seq<StateEvent>, taken: seq<StateEvent>, lost: nat)

  const NEW_CHAN := Chan([], [], [], 0)

  /** A send that never blocks: a full queue drops the event. */
  function Offer(c: Chan, e: StateEvent): Chan {
    if |c.queue| < CAPACITY then c.(queue := c.queue + [e], sent := c.sent + [e])
    else c.(sent := c.sent + [e], lost := c.lost + 1)
  }

  function Take(c: Chan): Chan
    requires c.queue != []
  {
    c.(queue := c.queue[1..], taken := c.taken + [c.queue[0]])
  }

  /** The sixteenth event that waits is kept; the seventeenth is dropped, and counted. */
  lemma SixteenWait(c: Chan, e: StateEvent)
    requires |c.queue| <= 16
    ensures var c' := Offer(c, e);
            && c'.sent == c.sent + [e] && c'.taken == c.taken
            && (if |c.queue| <= 15 then c'.queue == c.queue + [e] && c'.lost == c.lost
                else c'.queue == c.queue && c'.lost == c.lost + 1)
  {
  }

  /** Everything that got through. */
  function Through(c: Chan): seq<StateEvent> {
    c.taken + c.queue
  }

  /** `sub` can be obtained from `all` by leaving elements out. */
  ghost predicate Subsequence(sub: seq<StateEvent>, all: seq<StateEvent>) {
    if sub == [] then true
    else if all == [] then false
    else if sub[|sub| - 1] == all[|all| - 1] then Subsequence(sub[..|sub| - 1], all[..|all| - 1])
    else Subsequence(sub, all[..|all| - 1])
  }

  lemma {:induction false} SubsequenceSkips(sub: seq<StateEvent>, all: seq<StateEvent>, e: StateEvent)
    requires Subsequence(sub, all)
    ensures Subsequence(sub, all + [e])
    decreases |all|
  {
    assert (all + [e])[..|all|] == all;
    if sub != [] && sub[|sub| - 1] == e {
      var rest := all[..|all| - 1];
      if sub[|sub| - 1] == all[|all| - 1] {
        SubsequenceSkips(sub[..|sub| - 1], rest, all[|all| - 1]);
      } else {
        SubsequenceSkips(sub, rest, all[|all| - 1]);
        SubsequenceShrinks(sub, rest);
        SubsequenceSkips(sub[..|sub| - 1], rest, all[|all| - 1]);
      }
      assert rest + [all[|all| - 1]] == all;
    }
  }

  lemma {:induction false} SubsequenceShrinks(sub: seq<StateEvent>, all: seq<StateEvent>)
    requires sub != [] && Subsequence(sub, all)
    ensures Subsequence(sub[..|sub| - 1], all)
    decreases |all|
  {
    var rest := all[..|all| - 1];
    if sub[|sub| - 1] == all[|all| - 1] {
      SubsequenceSkips(sub[..|sub| - 1], rest, all[|all| - 1]);
      assert rest + [all[|all| - 1]] == all;
    } else {
      SubsequenceShrinks(sub, rest);
      SubsequenceSkips(sub[..|sub| - 1], rest, all[|all| - 1]);
      assert rest + [all[|all| - 1]] == all;
    }
  }

  lemma {:induction false} SubsequenceExtends(sub: seq<StateEvent>, all: seq<StateEvent>, e: StateEvent)
    requires Subsequence(sub, all)
    ensures Subsequence(sub + [e], all + [e])
  {
    assert (all + [e])[..|all|] == all && (sub + [e])[..|sub|] == sub;
  }

  lemma {:induction false} FullSubsequenceIsAll(sub: seq<StateEvent>, all: seq<StateEvent>)
    requires Subsequence(sub, all)
    ensures |sub| <= |all|
    ensures |sub| == |all| ==> sub == all
    decreases |all|
  {
    if sub != [] {
      var last := all[|all| - 1];
      assert all == all[..|all| - 1] + [last];
      if sub[|sub| - 1] == last {
        assert sub == sub[..|sub| - 1] + [last];
        FullSubsequenceIsAll(sub[..|sub| - 1], all[..|all| - 1]);
      } else {
        FullSubsequenceIsAll(sub, all[..|all| - 1]);
      }
    }
  }

  /** Bounded, in order, nothing invented, and every loss counted. */
  ghost predicate ChanOk(c: Chan) {
    && |c.queue| <= CAPACITY
    && Subsequence(Through(c), c.sent)
    && |Through(c)| + c.lost == |c.sent|
  }

  lemma OfferOk(c: Chan, e: StateEvent)
    requires ChanOk(c)
    ensures ChanOk(Offer(c, e))
    ensures Through(Offer(c, e)) == (if |c.queue| < CAPACITY then Through(c) + [e] else Through(c))
  {
    assert c.taken + (c.queue + [e]) == Through(c) + [e];
    SubsequenceExtends(Through(c), c.sent, e);
    SubsequenceSkips(Through(c), c.sent, e);
  }

  lemma TakeOk(c: Chan)
    requires ChanOk(c) && c.queue != []
    ensures ChanOk(Take(c)) && Through(Take(c)) == Through(c)
  {
    assert c.taken + [c.queue[0]] + c.queue[1..] == Through(c);
  }

  /** A queue that was never found full has let everything through, in order. */
  lemma NothingLostIsEverything(c: Chan)
    requires ChanOk(c)
    ensures c.lost == 0 <==> Through(c) == c.sent
  {
    FullSubsequenceIsAll(Through(c), c.sent);
  }

  // ----- What a subscriber hears of -----

  /** The events published under a name from position `since` on. */
  function Published(feed: seq<StateEvent>, since: nat, name: string): seq<StateEvent> {
    if |feed| <= since then []
    else Published(feed[..|feed| - 1], since, name) + if feed[|feed| - 1].name == name then [feed[|feed| - 1]] else []
  }

  lemma PublishedNothing(feed: seq<StateEvent>, name: string)
    ensures Published(feed, |feed|, name) == []
  {
  }

  lemma PublishedAppend(feed: seq<StateEvent>, e: StateEvent, since: nat, name: string)
    requires since <= |feed|
    ensures Published(feed + [e], since, name) == Published(feed, since, name) + if e.name == name then [e] else []
  {
    assert (feed + [e])[..|feed|] == feed;
  }

  /** What is published from some moment on is what is published up to a later one, then what comes after it. */
  lemma {:induction false} PublishedSplits(feed: seq<StateEvent>, since: nat, seen: nat, name: string)
    requires since <= seen <= |feed|
    ensures Published(feed, since, name) == Published(feed[..seen], since, name) + Published(feed, seen, name)
    decreases |feed|
  {
    if seen == |feed| {
      assert feed[..seen] == feed;
    } else {
      var front := feed[..|feed| - 1];
      assert front[..seen] == feed[..seen];
      PublishedSplits(front, since, seen, name);
    }
  }
}
