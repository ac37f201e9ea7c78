// eventbus/eventbus.go: the in-process broker, any number of publishers and subscribers interleaved send by send.
// Publish holds the read lock across its sends; Subscribe and the first unsubscribe hold the write lock.
module EventBus {
  import opened Basics
  import Runs

  type Pid = nat
  type ChanId = nat
  type Event = nat

  const DEFAULT_BUFFER_SIZE := 32

  function BufferSize(size: int): (r: nat)
    ensures r >= 1 && (size > 0 ==> r == size) && (size <= 0 ==> r == 32)
  {
    if size <= 0 then DEFAULT_BUFFER_SIZE else size
  }

  // A send that never blocks: the event is dropped when the buffer is full.
  function Offered(buf: seq<Event>, size: nat, e: Event): seq<Event> {
    if |buf| < size then buf + [e] else buf
  }

  // One attempted send: who, what, and how much room the buffer had.
  datatype Offer = Offer(p: Pid, e: Event, room: nat)

  // A subscriber's channel. `received` is what its subscriber has taken out, `offers` every send attempted on it, and
  // `since` how much each publisher had published when it subscribed.
  datatype Chan = Chan(
    size: nat, buf: seq<Event>, closed: bool, received: seq<Event>, offers: seq<Offer>, since: map<Pid, nat>)

  datatype Pc = Idle | Sending(remaining: set<ChanId>)

  // A publisher: what it has published, the last event being sent to the channels remaining.
  datatype Pub = Pub(published: seq<Event>, pc: Pc)

  datatype State = State(subs: set<ChanId>, chans: map<ChanId, Chan>, pubs: map<Pid, Pub>)

  ghost predicate Init(s: State) {
    s == State({}, map[], map[])
  }

  // No reader holds the lock, so a writer may.
  ghost predicate Unread(s: State) {
    forall p :: p in s.pubs ==> s.pubs[p].pc.Idle?
  }

  ghost predicate NewPublisher(s: State, s': State, p: Pid) {
    p !in s.pubs && s' == s.(pubs := s.pubs[p := Pub([], Idle)])
  }

  ghost predicate Publishes(s: State, s': State, p: Pid, e: Event) {
    && p in s.pubs && s.pubs[p].pc.Idle?
    && s' == s.(pubs := s.pubs[p := Pub(s.pubs[p].published + [e], Sending(s.subs))])
  }

  ghost predicate Sends(s: State, s': State, p: Pid, ch: ChanId) {
    && p in s.pubs && s.pubs[p].pc.Sending? && ch in s.pubs[p].pc.remaining && ch in s.chans
    && |s.pubs[p].published| > 0 && |s.chans[ch].buf| <= s.chans[ch].size
    && var c := s.chans[ch];
       var e := Last(s.pubs[p].published);
       s' == s.(pubs := s.pubs[p := s.pubs[p].(pc := Sending(s.pubs[p].pc.remaining - {ch}))],
                chans := s.chans[ch := c.(buf := Offered(c.buf, c.size, e),
                                          offers := c.offers + [Offer(p, e, c.size - |c.buf|)])])
  }

  ghost predicate EndsPublish(s: State, s': State, p: Pid) {
    && p in s.pubs && s.pubs[p].pc.Sending? && s.pubs[p].pc.remaining == {}
    && s' == s.(pubs := s.pubs[p := s.pubs[p].(pc := Idle)])
  }

  ghost predicate Subscribes(s: State, s': State, ch: ChanId, size: int) {
    && ch !in s.chans && Unread(s)
    && s' == s.(subs := s.subs + {ch},
                chans := s.chans[ch := Chan(BufferSize(size), [], false, [], [], Counts(s.pubs))])
  }

  ghost function Counts(pubs: map<Pid, Pub>): map<Pid, nat> {
    map p | p in pubs :: |pubs[p].published|
  }

  // The first call removes and closes the channel; the others do nothing.
  ghost predicate Unsubscribes(s: State, s': State, ch: ChanId) {
    && ch in s.chans
    && if s.chans[ch].closed then s' == s
       else Unread(s) && s' == s.(subs := s.subs - {ch}, chans := s.chans[ch := s.chans[ch].(closed := true)])
  }

  ghost predicate Receives(s: State, s': State, ch: ChanId) {
    && ch in s.chans && |s.chans[ch].buf| > 0
    && var c := s.chans[ch];
       s' == s.(chans := s.chans[ch := c.(buf := c.buf[1..], received := c.received + [c.buf[0]])])
  }

  ghost predicate PubStep(s: State, s': State) {
    || (exists p :: NewPublisher(s, s', p)) || (exists p, e :: Publishes(s, s', p, e))
    || (exists p :: EndsPublish(s, s', p))
  }

  ghost predicate SubStep(s: State, s': State) {
    || (exists ch, size :: Subscribes(s, s', ch, size)) || (exists ch :: Unsubscribes(s, s', ch))
    || (exists ch :: Receives(s, s', ch))
  }

  ghost predicate Next(s: State, s': State) {
    PubStep(s, s') || SubStep(s, s') || exists p, ch :: Sends(s, s', p, ch)
  }

  /* ---------- The invariant ---------- */

  // The events a channel's offers put into its buffer.
  ghost function Taken(offers: seq<Offer>): seq<Event> {
    if |offers| == 0 then []
    else Taken(DropLast(offers)) + if Last(offers).room > 0 then [Last(offers).e] else []
  }

  // The events one publisher offered.
  ghost function OffersOf(offers: seq<Offer>, p: Pid): seq<Event> {
    if |offers| == 0 then []
    else OffersOf(DropLast(offers), p) + if Last(offers).p == p then [Last(offers).e] else []
  }

  // Those of them that got in.
  ghost function TakenOf(offers: seq<Offer>, p: Pid): seq<Event> {
    if |offers| == 0 then []
    else TakenOf(DropLast(offers), p) + if Last(offers).p == p && Last(offers).room > 0 then [Last(offers).e] else []
  }

  ghost function Since(c: Chan, p: Pid): nat {
    if p in c.since then c.since[p] else 0
  }

  // What publisher p has published since c subscribed.
  ghost function PublishedSince(s: State, c: Chan, p: Pid): seq<Event>
    requires p in s.pubs
  {
    if Since(c, p) <= |s.pubs[p].published| then s.pubs[p].published[Since(c, p)..] else []
  }

  // What of it the channel has been offered, while it is subscribed: all but the event still to be sent to it.
  ghost function Due(s: State, ch: ChanId, p: Pid): seq<Event>
    requires p in s.pubs && ch in s.chans
  {
    var all := PublishedSince(s, s.chans[ch], p);
    if s.pubs[p].pc.Sending? && ch in s.pubs[p].pc.remaining && |all| > 0 then DropLast(all) else all
  }

  ghost predicate PairInv(s: State, ch: ChanId, p: Pid)
    requires p in s.pubs && ch in s.chans
  {
    var c := s.chans[ch];
    && Since(c, p) <= |s.pubs[p].published|
    && (s.pubs[p].pc.Sending? && ch in s.pubs[p].pc.remaining ==> Since(c, p) < |s.pubs[p].published|)
    && (if c.closed then OffersOf(c.offers, p) <= PublishedSince(s, c, p) else OffersOf(c.offers, p) == Due(s, ch, p))
  }

  ghost predicate ChanInv(s: State, ch: ChanId)
    requires ch in s.chans
  {
    var c := s.chans[ch];
    && (ch in s.subs <==> !c.closed)
    && 1 <= c.size && |c.buf| <= c.size
    && c.received + c.buf == Taken(c.offers)
    && (forall i :: 0 <= i < |c.offers| ==> c.offers[i].p in s.pubs)
    && (forall p :: p in c.since ==> p in s.pubs)
  }

  ghost predicate Inv(s: State) {
    && s.subs <= s.chans.Keys
    && (forall p :: p in s.pubs && s.pubs[p].pc.Sending? ==>
                      s.pubs[p].pc.remaining <= s.subs && |s.pubs[p].published| > 0)
    && (forall ch :: ch in s.chans ==> ChanInv(s, ch))
    && (forall ch, p :: ch in s.chans && p in s.pubs ==> PairInv(s, ch, p))
  }

  // A publisher a channel has no offers from.
  lemma {:induction false} NoOffersFrom(offers: seq<Offer>, p: Pid)
    requires forall i :: 0 <= i < |offers| ==> offers[i].p != p
    ensures OffersOf(offers, p) == []
  {
    if |offers| > 0 {
      NoOffersFrom(DropLast(offers), p);
    }
  }

  lemma NewPublisherKeeps(s: State, s': State, p: Pid)
    requires Inv(s) && NewPublisher(s, s', p)
    ensures Inv(s')
  {
    forall ch | ch in s'.chans
      ensures ChanInv(s', ch)
    {
      assert ChanInv(s, ch);
    }
    forall ch, q | ch in s'.chans && q in s'.pubs
      ensures PairInv(s', ch, q)
    {
      assert ChanInv(s, ch);
      if q == p {
        NoOffersFrom(s.chans[ch].offers, p);
      } else {
        assert PairInv(s, ch, q);
      }
    }
  }

  // The channels' own part does not depend on what the publishers do.
  lemma ChansKeep(s: State, s': State)
    requires Inv(s) && s'.chans == s.chans && s'.subs == s.subs && s.pubs.Keys <= s'.pubs.Keys
    ensures forall ch :: ch in s'.chans ==> ChanInv(s', ch)
  {
    forall ch | ch in s'.chans
      ensures ChanInv(s', ch)
    {
      assert ChanInv(s, ch);
    }
  }

  lemma PublishesPair(s: State, s': State, p: Pid, e: Event, ch: ChanId)
    requires Publishes(s, s', p, e) && ch in s.chans && PairInv(s, ch, p)
    requires ch in s.subs <==> !s.chans[ch].closed
    ensures PairInv(s', ch, p)
  {
    var n := Since(s.chans[ch], p);
    assert s'.pubs[p].published[n..] == s.pubs[p].published[n..] + [e];
  }

  lemma PublishKeeps(s: State, s': State, p: Pid, e: Event)
    requires Inv(s) && Publishes(s, s', p, e)
    ensures Inv(s')
  {
    ChansKeep(s, s');
    forall ch, q | ch in s'.chans && q in s'.pubs
      ensures PairInv(s', ch, q)
    {
      assert ChanInv(s, ch) && PairInv(s, ch, q);
      if q == p {
        PublishesPair(s, s', p, e, ch);
      }
    }
  }

  lemma EndPublishKeeps(s: State, s': State, p: Pid)
    requires Inv(s) && EndsPublish(s, s', p)
    ensures Inv(s')
  {
    ChansKeep(s, s');
    forall ch, q | ch in s'.chans && q in s'.pubs
      ensures PairInv(s', ch, q)
    {
      assert PairInv(s, ch, q);
    }
  }

  // The channel sent to: its own part, and what it has been offered.
  lemma SendsChan(s: State, s': State, p: Pid, id: ChanId)
    requires Sends(s, s', p, id) && ChanInv(s, id)
    ensures ChanInv(s', id)
  {
    var c, e := s.chans[id], Last(s.pubs[p].published);
    hide Taken;
    TakenGrows(c.offers, Offer(p, e, c.size - |c.buf|));
    assert c.received + (c.buf + [e]) == (c.received + c.buf) + [e];
  }

  lemma TakenGrows(offers: seq<Offer>, offer: Offer)
    ensures Taken(offers + [offer]) == if offer.room > 0 then Taken(offers) + [offer.e] else Taken(offers)
  {
    assert DropLast(offers + [offer]) == offers;
  }

  lemma OffersGrow(offers: seq<Offer>, offer: Offer, q: Pid)
    ensures OffersOf(offers + [offer], q) ==
            if offer.p == q then OffersOf(offers, q) + [offer.e] else OffersOf(offers, q)
  {
    assert DropLast(offers + [offer]) == offers;
  }

  lemma SuffixEnd(events: seq<Event>, n: nat)
    requires n < |events|
    ensures events[n..] != [] && DropLast(events[n..]) + [Last(events)] == events[n..]
  {
  }

  lemma SendsSamePair(s: State, s': State, p: Pid, id: ChanId)
    requires Sends(s, s', p, id) && PairInv(s, id, p) && !s.chans[id].closed
    ensures PairInv(s', id, p)
  {
    var c, published := s.chans[id], s.pubs[p].published;
    hide OffersOf;
    OffersGrow(c.offers, Offer(p, Last(published), c.size - |c.buf|), p);
    SuffixEnd(published, Since(c, p));
  }

  lemma SendsOtherPair(s: State, s': State, p: Pid, id: ChanId, ch: ChanId, q: Pid)
    requires Sends(s, s', p, id) && ch in s.chans && q in s.pubs && PairInv(s, ch, q)
    requires ch != id || q != p
    ensures PairInv(s', ch, q)
  {
    var c := s.chans[id];
    hide OffersOf;
    OffersGrow(c.offers, Offer(p, Last(s.pubs[p].published), c.size - |c.buf|), q);
  }

  lemma SendsKeeps(s: State, s': State, p: Pid, id: ChanId)
    requires Inv(s) && Sends(s, s', p, id)
    ensures Inv(s')
  {
    forall ch | ch in s'.chans
      ensures ChanInv(s', ch)
    {
      assert ChanInv(s, ch);
      if ch == id {
        SendsChan(s, s', p, id);
      }
    }
    forall ch, q | ch in s'.chans && q in s'.pubs
      ensures PairInv(s', ch, q)
    {
      assert PairInv(s, ch, q) && ChanInv(s, ch);
      if ch == id && q == p {
        SendsSamePair(s, s', p, id);
      } else {
        SendsOtherPair(s, s', p, id, ch, q);
      }
    }
    hide ChanInv, PairInv;
  }

  lemma SubscribesKeeps(s: State, s': State, id: ChanId, size: int)
    requires Inv(s) && Subscribes(s, s', id, size)
    ensures Inv(s')
  {
    forall ch | ch in s'.chans
      ensures ChanInv(s', ch)
    {
      if ch != id {
        assert ChanInv(s, ch);
      }
    }
    forall ch, q | ch in s'.chans && q in s'.pubs
      ensures PairInv(s', ch, q)
    {
      if ch != id {
        assert PairInv(s, ch, q);
      }
    }
  }

  lemma UnsubscribesKeeps(s: State, s': State, id: ChanId)
    requires Inv(s) && Unsubscribes(s, s', id)
    ensures Inv(s')
  {
    forall ch | ch in s'.chans
      ensures ChanInv(s', ch)
    {
      assert ChanInv(s, ch);
    }
    forall ch, q | ch in s'.chans && q in s'.pubs
      ensures PairInv(s', ch, q)
    {
      assert PairInv(s, ch, q);
    }
  }

  lemma ReceivesKeeps(s: State, s': State, id: ChanId)
    requires Inv(s) && Receives(s, s', id)
    ensures Inv(s')
  {
    var c := s.chans[id];
    assert c.received + c.buf == (c.received + [c.buf[0]]) + c.buf[1..];
    forall ch | ch in s'.chans
      ensures ChanInv(s', ch)
    {
      assert ChanInv(s, ch);
    }
    forall ch, q | ch in s'.chans && q in s'.pubs
      ensures PairInv(s', ch, q)
    {
      assert PairInv(s, ch, q);
    }
  }

  lemma NextKeeps(s: State, s': State)
    requires Inv(s) && Next(s, s')
    ensures Inv(s')
  {
    hide Inv, NewPublisher, Publishes, EndsPublish, Subscribes, Unsubscribes, Receives, Sends;
    if p :| NewPublisher(s, s', p) {
      NewPublisherKeeps(s, s', p);
    } else if p, e :| Publishes(s, s', p, e) {
      PublishKeeps(s, s', p, e);
    } else if p :| EndsPublish(s, s', p) {
      EndPublishKeeps(s, s', p);
    } else if ch, size :| Subscribes(s, s', ch, size) {
      SubscribesKeeps(s, s', ch, size);
    } else if ch :| Unsubscribes(s, s', ch) {
      UnsubscribesKeeps(s, s', ch);
    } else if ch :| Receives(s, s', ch) {
      ReceivesKeeps(s, s', ch);
    } else {
      var p, ch :| Sends(s, s', p, ch);
      SendsKeeps(s, s', p, ch);
    }
  }

  lemma Inductive()
    ensures forall s :: Init(s) ==> Inv(s)
    ensures forall s, s' :: Inv(s) && Next(s, s') ==> Inv(s')
  {
    forall s, s' | Inv(s) && Next(s, s')
      ensures Inv(s')
    {
      NextKeeps(s, s');
    }
  }

  /* ---------- Main results, over every interleaving ---------- */

  // A publisher never sends on a closed channel, nor to one that is gone.
  lemma SendsToOpen(s: State, p: Pid, ch: ChanId)
    requires Runs.Reachable(Init, Next, s)
    requires p in s.pubs && s.pubs[p].pc.Sending? && ch in s.pubs[p].pc.remaining
    ensures ch in s.subs && ch in s.chans && !s.chans[ch].closed
  {
    Inductive();
    Runs.InvariantReachable(Init, Next, Inv, s);
    assert ChanInv(s, ch);
  }

  // Once unsubscribed, a channel is closed for good, off the list, and is offered nothing more.
  lemma UnsubscribedForGood(run: seq<State>, i: nat, j: nat, ch: ChanId)
    requires Runs.IsRun(Init, Next, run) && i + 1 <= j < |run| && Unsubscribes(run[i], run[i + 1], ch)
    ensures ch in run[i + 1].chans && ch in run[j].chans && run[j].chans[ch].closed && ch !in run[j].subs
    ensures run[j].chans[ch].offers == run[i + 1].chans[ch].offers
  {
    Inductive();
    Runs.InvariantOverRun(Init, Next, Inv, run, i + 1);
    var offers := run[i + 1].chans[ch].offers;
    var gone := (u: State) => ch in u.chans && u.chans[ch].closed && u.chans[ch].offers == offers;
    assert forall u, v :: Inv(u) && gone(u) && Next(u, v) ==> gone(v) by {
      forall u, v | Inv(u) && gone(u) && Next(u, v)
        ensures gone(v)
      {
        ClosedKeeps(u, v, ch);
      }
    }
    hide Next, Inv;
    Runs.StableOverRun(Init, Next, Inv, gone, run, i + 1, j);
    Runs.InvariantOverRun(Init, Next, Inv, run, j);
    GoneChan(run[j], ch);
  }

  lemma GoneChan(s: State, ch: ChanId)
    requires Inv(s) && ch in s.chans && s.chans[ch].closed
    ensures ch !in s.subs
  {
    assert ChanInv(s, ch);
  }

  lemma ClosedKeeps(s: State, s': State, ch: ChanId)
    requires Inv(s) && Next(s, s') && ch in s.chans && s.chans[ch].closed
    ensures ch in s'.chans && s'.chans[ch].closed && s'.chans[ch].offers == s.chans[ch].offers
  {
    GoneChan(s, ch);
    hide ChanInv, PairInv, PubStep, SubStep;
    if p, to :| Sends(s, s', p, to) {
      assert to in s.subs;
    } else {
      ClosedKept(s, s', ch);
    }
  }

  lemma ClosedKept(s: State, s': State, ch: ChanId)
    requires (PubStep(s, s') || SubStep(s, s')) && ch in s.chans && s.chans[ch].closed
    ensures ch in s'.chans && s'.chans[ch].closed && s'.chans[ch].offers == s.chans[ch].offers
  {
    hide Unread, Counts;
  }

  // A buffer stays within its size, and what a subscriber has received and what is still buffered are exactly the
  // sends that found room, in order.
  lemma FirstInFirstOut(s: State, ch: ChanId)
    requires Runs.Reachable(Init, Next, s) && ch in s.chans
    ensures |s.chans[ch].buf| <= s.chans[ch].size
    ensures s.chans[ch].received + s.chans[ch].buf == Taken(s.chans[ch].offers)
  {
    Inductive();
    Runs.InvariantReachable(Init, Next, Inv, s);
    assert ChanInv(s, ch);
  }

  // Publishing never blocks: with sends left, each one can be made at once, whatever its subscriber does.
  lemma PublishNeverBlocks(s: State, p: Pid, ch: ChanId)
    requires Runs.Reachable(Init, Next, s)
    requires p in s.pubs && s.pubs[p].pc.Sending? && ch in s.pubs[p].pc.remaining
    ensures exists s' :: Sends(s, s', p, ch)
  {
    SendsToOpen(s, p, ch);
    FirstInFirstOut(s, ch);
    assert |s.pubs[p].published| > 0 by {
      Inductive();
      Runs.InvariantReachable(Init, Next, Inv, s);
    }
    hide Runs.Reachable, Taken;
    var c, e := s.chans[ch], Last(s.pubs[p].published);
    var s' := s.(pubs := s.pubs[p := s.pubs[p].(pc := Sending(s.pubs[p].pc.remaining - {ch}))],
                 chans := s.chans[ch := c.(buf := Offered(c.buf, c.size, e),
                                           offers := c.offers + [Offer(p, e, c.size - |c.buf|)])]);
    assert Sends(s, s', p, ch);
  }

  // While subscribed, a channel has been offered every event each publisher has finished publishing since, once
  // each and in order; so an event is missing only where an offer found no room. After unsubscribing it has been
  // offered a prefix of them.
  lemma OfferedExactly(s: State, ch: ChanId, p: Pid)
    requires Runs.Reachable(Init, Next, s) && ch in s.chans && p in s.pubs
    ensures Since(s.chans[ch], p) <= |s.pubs[p].published|
    ensures var published := s.pubs[p].published[Since(s.chans[ch], p)..];
            var offered := OffersOf(s.chans[ch].offers, p);
            && offered <= published
            && (ch in s.subs && s.pubs[p].pc.Idle? ==> offered == published)
            && (ch in s.subs ==> |published| <= |offered| + 1)
  {
    Inductive();
    Runs.InvariantReachable(Init, Next, Inv, s);
    assert ChanInv(s, ch) && PairInv(s, ch, p);
  }

  // a with some elements of b left out.
  ghost predicate Subsequence(a: seq<Event>, b: seq<Event>)
    decreases |b|
  {
    || a == []
    || (|b| > 0 && (Subsequence(a, DropLast(b)) || (Last(a) == Last(b) && Subsequence(DropLast(a), DropLast(b)))))
  }

  lemma {:induction false} SubsequenceExtends(a: seq<Event>, b: seq<Event>, more: seq<Event>)
    requires Subsequence(a, b)
    ensures Subsequence(a, b + more)
    decreases |more|
  {
    if |more| == 0 {
      assert b + more == b;
    } else {
      SubsequenceExtends(a, b, DropLast(more));
      assert DropLast(b + more) == b + DropLast(more);
    }
  }

  lemma {:induction false} SubsequencePrepends(a: seq<Event>, b: seq<Event>, before: seq<Event>)
    requires Subsequence(a, b)
    ensures Subsequence(a, before + b)
    decreases |b|
  {
    if a != [] {
      assert DropLast(before + b) == before + DropLast(b);
      if Subsequence(a, DropLast(b)) {
        SubsequencePrepends(a, DropLast(b), before);
      } else {
        SubsequencePrepends(DropLast(a), DropLast(b), before);
      }
    }
  }

  lemma {:induction false} TakenSubsequence(offers: seq<Offer>, p: Pid)
    ensures Subsequence(TakenOf(offers, p), OffersOf(offers, p))
  {
    if |offers| > 0 {
      var before, e := DropLast(offers), Last(offers).e;
      TakenSubsequence(before, p);
      var a, b := TakenOf(before, p), OffersOf(before, p);
      assert a + [] == a && b + [] == b;
      assert DropLast(b + [e]) == b && DropLast(a + [e]) == a;
      assert Subsequence(a, b + [e]) && Subsequence(a + [e], b + [e]);
    }
  }

  lemma SubsequenceOfSuffix(a: seq<Event>, offered: seq<Event>, published: seq<Event>, n: nat)
    requires Subsequence(a, offered) && n <= |published| && offered <= published[n..]
    ensures Subsequence(a, published)
  {
    var more := published[n..][|offered|..];
    assert offered + more == published[n..];
    assert published[..n] + published[n..] == published;
    hide Subsequence;
    SubsequenceExtends(a, offered, more);
    SubsequencePrepends(a, published[n..], published[..n]);
  }

  // What a subscriber gets from one publisher is an order-preserving subsequence of what that publisher published.
  lemma InPublishedOrder(s: State, ch: ChanId, p: Pid)
    requires Runs.Reachable(Init, Next, s) && ch in s.chans && p in s.pubs
    ensures Subsequence(TakenOf(s.chans[ch].offers, p), s.pubs[p].published)
  {
    OfferedExactly(s, ch, p);
    hide Subsequence, TakenOf, OffersOf;
    var c := s.chans[ch];
    TakenSubsequence(c.offers, p);
    SubsequenceOfSuffix(TakenOf(c.offers, p), OffersOf(c.offers, p), s.pubs[p].published, Since(c, p));
  }

  lemma {:induction false} AllTakenOf(offers: seq<Offer>, p: Pid)
    requires forall i :: 0 <= i < |offers| ==> offers[i].p == p
    ensures Taken(offers) == TakenOf(offers, p)
  {
    if |offers| > 0 {
      AllTakenOf(DropLast(offers), p);
    }
  }

  // So with one publisher, all that a subscriber gets is such a subsequence.
  lemma OnePublisherOrder(s: State, ch: ChanId, p: Pid)
    requires Runs.Reachable(Init, Next, s) && ch in s.chans && s.pubs.Keys == {p}
    ensures Subsequence(s.chans[ch].received + s.chans[ch].buf, s.pubs[p].published)
  {
    Inductive();
    Runs.InvariantReachable(Init, Next, Inv, s);
    assert ChanInv(s, ch);
    AllTakenOf(s.chans[ch].offers, p);
    InPublishedOrder(s, ch, p);
  }

  /* ---------- The broker as one goroutine sees it ---------- */

  class Channel {
    const size: nat
    var buf: seq<Event>
    var closed: bool

    constructor (size: nat)
      ensures this.size == size && buf == [] && !closed
    {
      this.size, buf, closed := size, [], false;
    }

    // A select with a default; sending on a closed channel would panic.
    method TrySend(e: Event)
      requires !closed
      modifies this`buf
      ensures buf == Offered(old(buf), size, e)
    {
      if |buf| < size {
        buf := buf + [e];
      }
    }
  }

  class Broker {
    var subscribers: set<Channel>

    // Every subscriber's channel is open and within its size.
    ghost predicate Valid()
      reads this, subscribers
    {
      forall ch :: ch in subscribers ==> !ch.closed && |ch.buf| <= ch.size
    }

    constructor ()
      ensures Valid() && subscribers == {}
    {
      subscribers := {};
    }

    method Publish(e: Event)
      requires Valid()
      modifies subscribers`buf
      ensures Valid()
      ensures forall ch :: ch in subscribers ==> ch.buf == Offered(old(ch.buf), ch.size, e)
    {
      var left := subscribers;
      while left != {}
        invariant left <= subscribers
        invariant forall ch :: ch in subscribers ==> !ch.closed && |ch.buf| <= ch.size
        invariant forall ch :: ch in subscribers ==>
                    ch.buf == if ch in left then old(ch.buf) else Offered(old(ch.buf), ch.size, e)
        decreases left
      {
        var ch :| ch in left;
        ch.TrySend(e);
        left := left - {ch};
      }
    }

    method Subscribe(size: int) returns (ch: Channel)
      requires Valid()
      modifies this
      ensures Valid() && fresh(ch) && subscribers == old(subscribers) + {ch}
      ensures ch.size == BufferSize(size) && ch.buf == []
    {
      ch := new Channel(BufferSize(size));
      subscribers := subscribers + {ch};
    }

    // The unsubscribe closure, `done` being its once flag; the flag's new value is returned.
    method Unsubscribe(ch: Channel, done: bool) returns (nowDone: bool)
      requires Valid() && (!done ==> ch in subscribers)
      modifies this, ch`closed
      ensures Valid() && nowDone
      ensures done ==> subscribers == old(subscribers) && ch.closed == old(ch.closed)
      ensures !done ==> subscribers == old(subscribers) - {ch} && ch.closed
    {
      if !done {
        subscribers := subscribers - {ch};
        ch.closed := true;
      }
      nowDone := true;
    }
  }
}
