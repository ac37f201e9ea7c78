// localgateway/admission.go: the bounded listener, a counting semaphore over a mutex and a condition variable.
// A critical section is one step; sleeping in cond.Wait, being signalled, and running again are three.
module Admission {
  import opened Counting
  import Runs

  type Tid = nat

  const DEFAULT_MAX_CONNECTIONS := 64
  const MAX_CONNECTIONS := 4096

  // The gateway's connection limit, always at least one.
  function NormalizeMaxConnections(max: int): (r: int)
    ensures 1 <= r <= MAX_CONNECTIONS
    ensures 1 <= max <= MAX_CONNECTIONS ==> r == max
    ensures max < 1 || MAX_CONNECTIONS < max ==> r == 64
  {
    if max <= 0 || max > MAX_CONNECTIONS then DEFAULT_MAX_CONNECTIONS else max
  }

  // Where a call of Accept is.
  datatype Pc =
    | Entering     // about to lock and test the limit
    | Asleep       // on the condition variable's list
    | Woken        // taken off the list, about to lock again and re-test
    | InAccept     // holds a reservation, inside the underlying Accept
    | Failing      // the underlying Accept failed; about to release
    | Accepted     // the underlying Accept returned a connection; about to lock and test closed
    | Returned(err: bool)

  // A published connection and its once flag: the release runs inside the first Close.
  datatype Conn = Open | Releasing | Released

  // The listener's own fields.
  datatype Listener = Listener(max: int, active: int, closed: bool)

  // `sawClosed` and `sawError` record the calls that found the listener closed when they had the mutex, and those whose
  // underlying Accept failed.
  datatype State = State(
    l: Listener, calls: map<Tid, Pc>, conns: map<Tid, Conn>, sawClosed: set<Tid>, sawError: set<Tid>)

  datatype Gate = Sleep | Refuse | Reserve

  // The test at the head of Accept.
  function Test(l: Listener): Gate {
    if l.active >= l.max && !l.closed then Sleep else if l.closed then Refuse else Reserve
  }

  // What each critical section does to the listener's fields.
  function Tested(l: Listener): Listener {
    if Test(l).Reserve? then l.(active := l.active + 1) else l
  }

  function Freed(l: Listener): Listener {
    l.(active := l.active - 1)
  }

  function Shut(l: Listener): Listener {
    l.(closed := true)
  }

  predicate IsAsleep(pc: Pc) { pc.Asleep? }
  predicate IsWoken(pc: Pc) { pc.Woken? }

  // Holding a reservation.
  predicate IsHolding(pc: Pc) { pc.InAccept? || pc.Failing? || pc.Accepted? }

  // Published, and its slot not yet given back.
  predicate IsLive(c: Conn) { !c.Released? }

  ghost function Sleepers(s: State): set<Tid> { Where(s.calls, IsAsleep) }
  ghost function Awakened(s: State): set<Tid> { Where(s.calls, IsWoken) }
  ghost function Holders(s: State): set<Tid> { Where(s.calls, IsHolding) }
  ghost function Live(s: State): set<Tid> { Where(s.conns, IsLive) }

  // cond.Signal: wakes one sleeper, any of them, and nobody when nobody sleeps.
  ghost predicate Signal(before: map<Tid, Pc>, after: map<Tid, Pc>) {
    if exists t :: t in before && before[t].Asleep?
    then exists t :: t in before && before[t].Asleep? && after == before[t := Woken]
    else after == before
  }

  // cond.Broadcast.
  ghost function Broadcast(calls: map<Tid, Pc>): map<Tid, Pc> {
    map t | t in calls :: if calls[t].Asleep? then Woken else calls[t]
  }

  ghost predicate Init(s: State) {
    && (exists requested :: s.l == Listener(NormalizeMaxConnections(requested), 0, false))
    && s.calls == map[] && s.conns == map[] && s.sawClosed == {} && s.sawError == {}
  }

  // Call t has the mutex, and may find the listener closed.
  ghost function Sees(s: State, t: Tid): set<Tid> {
    if s.l.closed then s.sawClosed + {t} else s.sawClosed
  }

  ghost predicate Call(s: State, s': State, t: Tid) {
    t !in s.calls && s' == s.(calls := s.calls[t := Entering])
  }

  ghost predicate Enter(s: State, s': State, t: Tid) {
    && t in s.calls && (s.calls[t].Entering? || s.calls[t].Woken?)
    && s'.l == Tested(s.l) && s'.conns == s.conns
    && s'.sawClosed == Sees(s, t) && s'.sawError == s.sawError
    && s'.calls == s.calls[t := match Test(s.l)
                                case Sleep => Asleep
                                case Refuse => Returned(true)
                                case Reserve => InAccept]
  }

  ghost predicate UnderlyingReturns(s: State, s': State, t: Tid) {
    && t in s.calls && s.calls[t].InAccept?
    && (|| s' == s.(calls := s.calls[t := Failing], sawError := s.sawError + {t})
        || s' == s.(calls := s.calls[t := Accepted]))
  }

  ghost predicate ReleaseFailed(s: State, s': State, t: Tid) {
    && t in s.calls && s.calls[t].Failing?
    && s'.l == Freed(s.l) && s'.conns == s.conns
    && s'.sawClosed == s.sawClosed && s'.sawError == s.sawError
    && Signal(s.calls[t := Returned(true)], s'.calls)
  }

  ghost predicate Publish(s: State, s': State, t: Tid) {
    && t in s.calls && s.calls[t].Accepted? && t !in s.conns
    && if s.l.closed then
         && s'.l == Freed(s.l) && s'.conns == s.conns
         && s'.sawClosed == Sees(s, t) && s'.sawError == s.sawError
         && Signal(s.calls[t := Returned(true)], s'.calls)
       else s' == s.(calls := s.calls[t := Returned(false)], conns := s.conns[t := Open])
  }

  // The first Close of a connection claims its once flag; any other Close changes nothing here.
  ghost predicate ConnClose(s: State, s': State, c: Tid) {
    && c in s.conns
    && s' == if s.conns[c].Open? then s.(conns := s.conns[c := Releasing]) else s
  }

  ghost predicate ConnRelease(s: State, s': State, c: Tid) {
    && c in s.conns && s.conns[c].Releasing?
    && s'.l == Freed(s.l) && s'.conns == s.conns[c := Released]
    && s'.sawClosed == s.sawClosed && s'.sawError == s.sawError
    && Signal(s.calls, s'.calls)
  }

  ghost predicate Close(s: State, s': State) {
    s' == if s.l.closed then s else s.(l := Shut(s.l), calls := Broadcast(s.calls))
  }

  ghost predicate Next(s: State, s': State) {
    || Close(s, s')
    || exists t: Tid ::
         || Call(s, s', t) || Enter(s, s', t) || UnderlyingReturns(s, s', t) || ReleaseFailed(s, s', t)
         || Publish(s, s', t) || ConnClose(s, s', t) || ConnRelease(s, s', t)
  }

  // Slots are conserved, no wakeup is lost, and closing leaves nobody asleep.
  ghost predicate Inv(s: State) {
    && s.l.max >= 1
    && s.l.active == |Holders(s)| + |Live(s)|
    && s.l.active <= s.l.max
    && (!s.l.closed && Sleepers(s) != {} ==> s.l.active + |Awakened(s)| >= s.l.max)
    && (s.l.closed ==> Sleepers(s) == {})
    && (forall c :: c in s.conns ==> c in s.calls && s.calls[c] == Returned(false))
  }

  // Moving one call from one program counter to another.
  lemma Moved(s: State, s': State, t: Tid, pc: Pc)
    requires s'.calls == s.calls[t := pc]
    ensures |Holders(s')| == |Holders(s)| + Bit(IsHolding(pc)) - Bit(t in s.calls && IsHolding(s.calls[t]))
    ensures |Awakened(s')| == |Awakened(s)| + Bit(pc.Woken?) - Bit(t in s.calls && s.calls[t].Woken?)
    ensures Sleepers(s') != {} ==> pc.Asleep? || Sleepers(s) != {}
  {
    WhereMoved(s.calls, IsHolding, t, pc);
    WhereMoved(s.calls, IsWoken, t, pc);
    WhereMoved(s.calls, IsAsleep, t, pc);
  }

  lemma ConnMoved(s: State, s': State, c: Tid, conn: Conn)
    requires s'.conns == s.conns[c := conn]
    ensures |Live(s')| == |Live(s)| + Bit(!conn.Released?) - Bit(c in s.conns && !s.conns[c].Released?)
  {
    WhereMoved(s.conns, IsLive, c, conn);
  }

  // A signal turns a sleeper into a woken call, if there is a sleeper.
  lemma Signalled(s: State, s': State)
    requires Signal(s.calls, s'.calls)
    ensures |Holders(s')| == |Holders(s)| && Sleepers(s') <= Sleepers(s)
    ensures |Awakened(s')| == |Awakened(s)| + Bit(Sleepers(s) != {})
    ensures forall c :: c in s.calls && s.calls[c] == Returned(false) ==>
                        c in s'.calls && s'.calls[c] == Returned(false)
  {
    if t :| t in s.calls && s.calls[t].Asleep? {
      assert t in Sleepers(s);
      var u :| u in s.calls && s.calls[u].Asleep? && s'.calls == s.calls[u := Woken];
      Moved(s, s', u, Woken);
      WhereMoved(s.calls, IsAsleep, u, Woken);
    } else {
      assert Sleepers(s) == {};
    }
  }

  // Giving a slot back: the shared part of a failed accept, a refused connection and a closed connection.
  lemma ReleaseKeeps(s: State, mid: State, s': State)
    requires Inv(s) && Signal(mid.calls, s'.calls)
    requires s'.l == Freed(s.l) && s'.conns == mid.conns
    requires |Holders(mid)| + |Live(mid)| == s.l.active - 1
    requires (Sleepers(mid) != {} ==> Sleepers(s) != {}) && |Awakened(mid)| == |Awakened(s)|
    requires forall c :: c in mid.conns ==> c in mid.calls && mid.calls[c] == Returned(false)
    ensures Inv(s')
  {
    hide Where, Signal;
    Signalled(mid, s');
  }

  lemma CallKeeps(s: State, s': State, t: Tid)
    requires Inv(s) && (Call(s, s', t) || UnderlyingReturns(s, s', t))
    ensures Inv(s')
  {
    hide Where;
    Moved(s, s', t, s'.calls[t]);
    assert t !in s.conns;
  }

  lemma EnterKeeps(s: State, s': State, t: Tid)
    requires Inv(s) && Enter(s, s', t)
    ensures Inv(s')
  {
    hide Where;
    Moved(s, s', t, s'.calls[t]);
    assert t !in s.conns;
  }

  lemma ConnCloseKeeps(s: State, s': State, c: Tid)
    requires Inv(s) && ConnClose(s, s', c)
    ensures Inv(s')
  {
    hide Where;
    if s.conns[c].Open? {
      ConnMoved(s, s', c, Releasing);
    }
  }

  lemma ConnReleaseKeeps(s: State, s': State, c: Tid)
    requires Inv(s) && ConnRelease(s, s', c)
    ensures Inv(s')
  {
    hide Where, Signal;
    var mid := s.(conns := s.conns[c := Released]);
    ConnMoved(s, mid, c, Released);
    ReleaseKeeps(s, mid, s');
  }

  lemma ReleaseFailedKeeps(s: State, s': State, t: Tid)
    requires Inv(s) && ReleaseFailed(s, s', t)
    ensures Inv(s')
  {
    hide Where, Signal;
    var mid := s.(calls := s.calls[t := Returned(true)]);
    Moved(s, mid, t, Returned(true));
    ReleaseKeeps(s, mid, s');
  }

  lemma PublishKeeps(s: State, s': State, t: Tid)
    requires Inv(s) && Publish(s, s', t)
    ensures Inv(s')
  {
    hide Where, Signal;
    var mid := s.(calls := s.calls[t := Returned(s.l.closed)]);
    Moved(s, mid, t, Returned(s.l.closed));
    if s.l.closed {
      ReleaseKeeps(s, mid, s');
    } else {
      ConnMoved(s, s', t, Open);
    }
  }

  lemma CloseKeeps(s: State, s': State)
    requires Inv(s) && Close(s, s')
    ensures Inv(s')
  {
    if !s.l.closed {
      assert Holders(s') == Holders(s) && Live(s') == Live(s);
      assert Sleepers(s') == {};
    }
  }

  lemma NextKeeps(s: State, s': State)
    requires Inv(s) && Next(s, s')
    ensures Inv(s')
  {
    hide Inv, Call, Enter, UnderlyingReturns, ReleaseFailed, Publish, ConnClose, ConnRelease, Close;
    if Close(s, s') {
      CloseKeeps(s, s');
    } else {
      var t: Tid :|
        || Call(s, s', t) || Enter(s, s', t) || UnderlyingReturns(s, s', t) || ReleaseFailed(s, s', t)
        || Publish(s, s', t) || ConnClose(s, s', t) || ConnRelease(s, s', t);
      if Call(s, s', t) || UnderlyingReturns(s, s', t) {
        CallKeeps(s, s', t);
      } else if Enter(s, s', t) {
        EnterKeeps(s, s', t);
      } else if ReleaseFailed(s, s', t) {
        ReleaseFailedKeeps(s, s', t);
      } else if Publish(s, s', t) {
        PublishKeeps(s, s', t);
      } else if ConnClose(s, s', t) {
        ConnCloseKeeps(s, s', t);
      } else {
        ConnReleaseKeeps(s, s', t);
      }
    }
  }

  lemma Inductive()
    ensures forall s :: Init(s) ==> Inv(s)
    ensures forall s, s' :: Inv(s) && Next(s, s') ==> Inv(s')
  {
    forall s | Init(s)
      ensures Inv(s)
    {
      assert Holders(s) == {} && Live(s) == {} && Sleepers(s) == {};
    }
    forall s, s' | Inv(s) && Next(s, s')
      ensures Inv(s')
    {
      NextKeeps(s, s');
    }
  }

  /* ---------- Why a call returned what it did ---------- */

  // What a call has seen decides what it returns, and a call that returned no error published its connection.
  ghost predicate CauseInv(s: State, t: Tid)
    requires t in s.calls
  {
    match s.calls[t]
    case Returned(err) => (err <==> t in s.sawClosed || t in s.sawError) && (!err ==> t in s.conns)
    case Failing => t in s.sawError && t !in s.sawClosed
    case _ => t !in s.sawClosed && t !in s.sawError
  }

  ghost predicate Causes(s: State) {
    && s.sawClosed <= s.calls.Keys && s.sawError <= s.calls.Keys
    && (s.sawClosed != {} ==> s.l.closed)
    && (forall t :: t in s.calls ==> CauseInv(s, t))
  }

  // A signal changes no call but a sleeping one.
  lemma SignalKeepsCauses(s: State, mid: State, s': State)
    requires Causes(mid) && Signal(mid.calls, s'.calls)
    requires s'.conns.Keys == mid.conns.Keys && s'.sawClosed == mid.sawClosed && s'.sawError == mid.sawError
    requires mid.l.closed ==> s'.l.closed
    ensures Causes(s')
  {
    forall t | t in s'.calls
      ensures t in mid.calls && CauseInv(s', t)
    {
      assert t in mid.calls ==> CauseInv(mid, t);
    }
  }

  lemma CallCauses(s: State, s': State, t: Tid)
    requires Causes(s)
    requires Call(s, s', t) || Enter(s, s', t) || UnderlyingReturns(s, s', t) || ConnClose(s, s', t)
    ensures Causes(s')
  {
    forall u | u in s'.calls
      ensures CauseInv(s', u)
    {
      assert u in s.calls ==> CauseInv(s, u);
    }
  }

  lemma ReleaseFailedCauses(s: State, s': State, t: Tid)
    requires Causes(s) && ReleaseFailed(s, s', t)
    ensures Causes(s')
  {
    hide Signal;
    var mid := s.(calls := s.calls[t := Returned(true)]);
    assert CauseInv(s, t);
    assert Causes(mid) by {
      forall u | u in mid.calls
        ensures CauseInv(mid, u)
      {
        assert CauseInv(s, u);
      }
    }
    SignalKeepsCauses(s, mid, s');
  }

  lemma PublishCauses(s: State, s': State, t: Tid)
    requires Causes(s) && Publish(s, s', t)
    ensures Causes(s')
  {
    hide Signal;
    var mid := s.(calls := s.calls[t := Returned(s.l.closed)], sawClosed := Sees(s, t),
                  conns := if s.l.closed then s.conns else s.conns[t := Open]);
    assert CauseInv(s, t);
    assert Causes(mid) by {
      forall u | u in mid.calls
        ensures CauseInv(mid, u)
      {
        assert CauseInv(s, u);
      }
    }
    if s.l.closed {
      SignalKeepsCauses(s, mid, s');
    } else {
      assert s' == mid;
    }
  }

  lemma CloseCauses(s: State, s': State)
    requires Causes(s) && Close(s, s')
    ensures Causes(s')
  {
    forall u | u in s'.calls
      ensures CauseInv(s', u)
    {
      assert CauseInv(s, u);
    }
  }

  lemma NextCauses(s: State, s': State)
    requires Causes(s) && Next(s, s')
    ensures Causes(s')
  {
    hide Causes, Call, Enter, UnderlyingReturns, ReleaseFailed, Publish, ConnClose, Close;
    if Close(s, s') {
      CloseCauses(s, s');
    } else {
      var t: Tid :|
        || Call(s, s', t) || Enter(s, s', t) || UnderlyingReturns(s, s', t) || ReleaseFailed(s, s', t)
        || Publish(s, s', t) || ConnClose(s, s', t) || ConnRelease(s, s', t);
      if ReleaseFailed(s, s', t) {
        ReleaseFailedCauses(s, s', t);
      } else if Publish(s, s', t) {
        PublishCauses(s, s', t);
      } else if ConnRelease(s, s', t) {
        SignalKeepsCauses(s, s, s');
      } else {
        CallCauses(s, s', t);
      }
    }
  }

  /* ---------- Main results, over every interleaving ---------- */

  // A call returns an error only if it found the listener closed, which then is closed, or its underlying Accept
  // failed; a call that returns none has published a connection. So a full listener makes a call wait, not fail.
  lemma ErrorsHaveCauses(s: State, t: Tid)
    requires Runs.Reachable(Init, Next, s) && t in s.calls && s.calls[t].Returned?
    ensures s.calls[t].err <==> t in s.sawClosed || t in s.sawError
    ensures t in s.sawClosed ==> s.l.closed
    ensures !s.calls[t].err ==> t in s.conns
  {
    assert forall u, v :: Causes(u) && Next(u, v) ==> Causes(v) by {
      forall u, v | Causes(u) && Next(u, v)
        ensures Causes(v)
      {
        NextCauses(u, v);
      }
    }
    hide Next;
    Runs.InvariantReachable(Init, Next, Causes, s);
    assert CauseInv(s, t);
  }

  // Every slot counted is held by one call inside Accept or by one connection not yet released, and the
  // limit is never exceeded.
  lemma SlotsConserved(s: State)
    requires Runs.Reachable(Init, Next, s)
    ensures s.l.active == |Holders(s)| + |Live(s)|
    ensures 0 <= s.l.active <= s.l.max <= MAX_CONNECTIONS
  {
    Inductive();
    Runs.InvariantReachable(Init, Next, Inv, s);
    var bounded := (u: State) => u.l.max <= MAX_CONNECTIONS;
    Runs.InvariantReachable(Init, Next, bounded, s);
  }

  // While the listener is open and a call sleeps, the free slots are all spoken for by woken calls.
  lemma NoLostWakeup(s: State)
    requires Runs.Reachable(Init, Next, s)
    requires !s.l.closed && Sleepers(s) != {}
    ensures s.l.active + |Awakened(s)| >= s.l.max
    ensures s.l.active < s.l.max ==> exists t :: t in s.calls && s.calls[t].Woken? && Test(s.l).Reserve?
  {
    Inductive();
    Runs.InvariantReachable(Init, Next, Inv, s);
    if s.l.active < s.l.max {
      assert Awakened(s) != {};
      var t :| t in Awakened(s);
    }
  }

  // So when nothing can move but the environment, a sleeping call means that every slot is in use by an
  // accept in flight or an open connection.
  lemma SleepsOnlyWhenFull(s: State)
    requires Runs.Reachable(Init, Next, s)
    requires !s.l.closed && Sleepers(s) != {}
    requires forall t :: t in s.calls ==> s.calls[t].Asleep? || s.calls[t].InAccept? || s.calls[t].Returned?
    requires forall c :: c in s.conns ==> !s.conns[c].Releasing?
    ensures |set t | t in s.calls && s.calls[t].InAccept?| + |set c | c in s.conns && s.conns[c].Open?| == s.l.max
  {
    NoLostWakeup(s);
    SlotsConserved(s);
    assert Awakened(s) == {};
    assert Holders(s) == set t | t in s.calls && s.calls[t].InAccept?;
    assert Live(s) == set c | c in s.conns && s.conns[c].Open?;
  }

  // Nothing is undone: a closed listener stays closed, a released connection stays released.
  lemma NextMonotone(s: State, s': State)
    requires Next(s, s')
    ensures s.l.closed ==> s'.l.closed
    ensures forall c :: c in s.conns && s.conns[c].Released? ==> c in s'.conns && s'.conns[c].Released?
  {
    hide Signal;
  }

  // Once closed, the listener stays closed and no call is ever asleep again.
  lemma ClosedForGood(run: seq<State>, i: nat, j: nat)
    requires Runs.IsRun(Init, Next, run) && i <= j < |run|
    requires run[i].l.closed || (i + 1 <= j && Close(run[i], run[i + 1]))
    ensures run[j].l.closed && Sleepers(run[j]) == {}
  {
    Inductive();
    var closed := (u: State) => u.l.closed;
    assert forall u, v :: closed(u) && Next(u, v) ==> closed(v) by {
      forall u, v | closed(u) && Next(u, v)
        ensures closed(v)
      {
        NextMonotone(u, v);
      }
    }
    hide Next;
    Runs.StableOverRun(Init, Next, Inv, closed, run, if run[i].l.closed then i else i + 1, j);
    Runs.InvariantOverRun(Init, Next, Inv, run, j);
  }

  // A connection gives its slot back at most once, however often it is closed.
  lemma ReleasedForGood(run: seq<State>, i: nat, j: nat, c: Tid)
    requires Runs.IsRun(Init, Next, run) && i <= j < |run|
    requires c in run[i].conns && run[i].conns[c].Released?
    ensures c in run[j].conns && run[j].conns[c].Released?
  {
    Inductive();
    var released := (u: State) => c in u.conns && u.conns[c].Released?;
    assert forall u, v :: released(u) && Next(u, v) ==> released(v) by {
      forall u, v | released(u) && Next(u, v)
        ensures released(v)
      {
        NextMonotone(u, v);
      }
    }
    hide Next, Inv;
    Runs.StableOverRun(Init, Next, Inv, released, run, i, j);
  }

  // Closing a connection claims its slot, and a claimed slot can be given back at once.
  lemma ClosedConnReleases(s: State, s': State, c: Tid)
    requires ConnClose(s, s', c)
    ensures c in s'.conns && !s'.conns[c].Open?
    ensures s'.conns[c].Releasing? ==> exists s'' :: ConnRelease(s', s'', c)
  {
    if s'.conns[c].Releasing? {
      var next := s'.(l := Freed(s'.l), conns := s'.conns[c := Released]);
      if t :| t in s'.calls && s'.calls[t].Asleep? {
        assert ConnRelease(s', next.(calls := s'.calls[t := Woken]), c);
      } else {
        assert ConnRelease(s', next, c);
      }
    }
  }

  /* ---------- The critical sections, on the listener's own fields ---------- */

  // `asleep` is the condition variable's list: the calls of Accept that wait on it.
  class AdmissionListener {
    const max: int
    var active: int
    var closed: bool
    var asleep: set<Tid>

    ghost function View(): Listener
      reads this
    {
      Listener(max, active, closed)
    }

    constructor (requested: int)
      ensures View() == Listener(NormalizeMaxConnections(requested), 0, false) && asleep == {}
    {
      max, active, closed, asleep := NormalizeMaxConnections(requested), 0, false, {};
    }

    // cond.Signal: takes one call off the list, if there is one.
    method Signal() returns (woken: set<Tid>)
      modifies this`asleep
      ensures woken <= old(asleep) && asleep == old(asleep) - woken
      ensures if old(asleep) == {} then woken == {} else |woken| == 1
    {
      woken := {};
      if asleep != {} {
        var t := Pick(asleep);
        woken, asleep := {t}, asleep - {t};
      }
    }

    // The test at the head of Accept, by call t.
    method TestAndReserve(t: Tid) returns (gate: Gate)
      modifies this
      ensures gate == Test(old(View())) && View() == Tested(old(View()))
      ensures gate == Refuse <==> old(closed)
      ensures gate == Sleep <==> !old(closed) && old(active) >= max
      ensures gate == Reserve <==> !old(closed) && old(active) < max
      ensures closed == old(closed) && active == if gate == Reserve then old(active) + 1 else old(active)
      ensures asleep == if gate == Sleep then old(asleep) + {t} else old(asleep)
    {
      if active >= max && !closed {
        asleep := asleep + {t};
        return Sleep;
      }
      if closed {
        return Refuse;
      }
      active := active + 1;
      gate := Reserve;
    }

    // Gives a slot back, and wakes one sleeper for it.
    method Release() returns (woken: set<Tid>)
      modifies this
      ensures View() == Freed(old(View())) && active == old(active) - 1 && closed == old(closed)
      ensures woken <= old(asleep) && asleep == old(asleep) - woken
      ensures if old(asleep) == {} then woken == {} else |woken| == 1
    {
      active := active - 1;
      woken := Signal();
    }

    // After the underlying accept: gives the slot back, as Release does, if the listener was closed meanwhile.
    method Recheck() returns (publish: bool, woken: set<Tid>)
      modifies this
      ensures publish <==> !old(closed)
      ensures View() == if publish then old(View()) else Freed(old(View()))
      ensures closed == old(closed) && active == if publish then old(active) else old(active) - 1
      ensures woken <= old(asleep) && asleep == old(asleep) - woken
      ensures if publish || old(asleep) == {} then woken == {} else |woken| == 1
    {
      woken := {};
      if closed {
        active := active - 1;
        woken := Signal();
      }
      publish := !closed;
    }

    // Wakes every sleeper, the first time.
    method Close() returns (woken: set<Tid>)
      modifies this
      ensures View() == Shut(old(View())) && closed && active == old(active)
      ensures woken == (if old(closed) then {} else old(asleep)) && asleep == old(asleep) - woken
    {
      woken := {};
      if !closed {
        closed := true;
        woken, asleep := asleep, {};
      }
    }
  }

  // A published connection and its once flag.
  class AdmittedConn {
    const l: AdmissionListener
    var done: bool

    constructor (l: AdmissionListener)
      ensures this.l == l && !done
    {
      this.l, done := l, false;
    }

    // Gives the slot back the first time, and does nothing to the listener afterwards.
    method Close() returns (woken: set<Tid>)
      modifies this, l
      ensures done && l.closed == old(l.closed)
      ensures l.active == if old(done) then old(l.active) else old(l.active) - 1
      ensures woken <= old(l.asleep) && l.asleep == old(l.asleep) - woken
      ensures if old(done) || old(l.asleep) == {} then woken == {} else |woken| == 1
    {
      woken := {};
      if !done {
        done := true;
        woken := l.Release();
      }
    }
  }
}
