// localgateway/gateway.go: the handler gate and the start/stop protocol of the local gateway server.
// A critical section is one step. Stop holds the server's mutex from its first step to its last, across
// its waits, so the mutex has an explicit owner.
module Gateway {
  import opened Basics
  import opened Counting
  import Runs

  type Tid = nat

  // The handler gate's fields; `cond` is whether its condition variable exists yet.
  datatype Gate = Gate(stopping: bool, active: int, cond: bool)

  // Where a request's ServeHTTP is.
  datatype Request = Arrived | InHandler | Finished(refused: bool)

  // The server's fields; `cleanup` is whether an endpoint cleanup is still owed.
  datatype Fields = Fields(stopping: bool, stopped: bool, started: bool, cleanup: bool, serveErr: bool)

  // The serve goroutine, whose end closes serveDone.
  datatype Serve = Unborn | Serving | Ended

  datatype StartCall = StartWaiting | StartReturned(ok: bool)

  datatype StopAt =
    | WaitingLock | AtGate | AtShutdown | AtListener | AwaitingServe
    | TestingGate | GateAsleep | GateWoken | AtCleanup | AtResult
    | StopReturned

  // Where a call of Stop is, and whether its result already holds an error.
  datatype StopCall = StopCall(at: StopAt, failed: bool)

  // The history records what the claims speak of: successful starts and cleanups, whether any Stop has had the mutex
  // and whether any has got past its wait for the handlers, which Stops have shut the HTTP server down and closed the
  // listener, which met an error in doing so or in cleaning up, and which found the serve error set when they returned.
  datatype History = History(
    starts: nat, cleanups: nat, stopBegun: bool, drained: bool,
    shutDown: set<Tid>, closed: set<Tid>, metError: set<Tid>, sawServeErr: set<Tid>)

  datatype State = State(
    gate: Gate, fields: Fields, mu: Option<Tid>, serve: Serve,
    requests: map<Tid, Request>, startCalls: map<Tid, StartCall>, stopCalls: map<Tid, StopCall>,
    hist: History)

  predicate IsInHandler(r: Request) { r.InHandler? }

  ghost function Running(s: State): set<Tid> { Where(s.requests, IsInHandler) }

  /* ---------- The gate's critical sections ---------- */

  function Entered(g: Gate): Gate {
    if g.stopping then g else g.(active := g.active + 1)
  }

  function Left(g: Gate): Gate {
    g.(active := g.active - 1)
  }

  function LeaveWakes(g: Gate): bool {
    Left(g).active == 0 && g.cond
  }

  function Stopping(g: Gate): Gate {
    g.(stopping := true)
  }

  function Waited(g: Gate): Gate {
    g.(cond := true)
  }

  /* ---------- The server's fields, changed only under its mutex ---------- */

  predicate MayStart(f: Fields, listens: bool) {
    !f.stopping && !f.stopped && !f.started && listens
  }

  function Started(f: Fields): Fields {
    f.(started := true, cleanup := true)
  }

  function StopBegun(f: Fields): Fields {
    f.(stopping := true)
  }

  // The cleanup is kept for a later Stop when it fails.
  function CleanedUp(f: Fields, err: bool): Fields {
    f.(cleanup := f.cleanup && err)
  }

  predicate StopFails(f: Fields, failed: bool) {
    failed || f.serveErr
  }

  function StopEnded(f: Fields, failed: bool): Fields {
    f.(stopped := f.stopped || !StopFails(f, failed))
  }

  ghost function WakeAll(stopCalls: map<Tid, StopCall>): map<Tid, StopCall> {
    map t | t in stopCalls :: if stopCalls[t].at.GateAsleep? then stopCalls[t].(at := GateWoken) else stopCalls[t]
  }

  /* ---------- Steps ---------- */

  ghost predicate Init(s: State) {
    && s.gate == Gate(false, 0, false)
    && s.fields == Fields(false, false, false, false, false)
    && s.mu == None && s.serve == Unborn
    && s.requests == map[] && s.startCalls == map[] && s.stopCalls == map[]
    && s.hist == History(0, 0, false, false, {}, {}, {}, {})
  }

  // net/http hands a request to the gated handler, at any time once serving has begun.
  ghost predicate Arrive(s: State, s': State, t: Tid) {
    t !in s.requests && !s.serve.Unborn? && s' == s.(requests := s.requests[t := Arrived])
  }

  ghost predicate Enter(s: State, s': State, t: Tid) {
    && t in s.requests && s.requests[t].Arrived?
    && s' == s.(gate := Entered(s.gate),
                requests := s.requests[t := if s.gate.stopping then Finished(true) else InHandler])
  }

  ghost predicate Leave(s: State, s': State, t: Tid) {
    && t in s.requests && s.requests[t].InHandler?
    && s' == s.(gate := Left(s.gate), requests := s.requests[t := Finished(false)],
                stopCalls := if LeaveWakes(s.gate) then WakeAll(s.stopCalls) else s.stopCalls)
  }

  ghost predicate CallStart(s: State, s': State, t: Tid) {
    t !in s.startCalls && s' == s.(startCalls := s.startCalls[t := StartWaiting])
  }

  // Start runs entirely under the server's mutex; `listens` is whether the endpoint could be opened.
  ghost predicate Start(s: State, s': State, t: Tid, listens: bool) {
    && t in s.startCalls && s.startCalls[t].StartWaiting? && s.mu == None
    && if MayStart(s.fields, listens) then
         s' == s.(fields := Started(s.fields), serve := Serving,
                  startCalls := s.startCalls[t := StartReturned(true)],
                  hist := s.hist.(starts := s.hist.starts + 1))
       else
         s' == s.(startCalls := s.startCalls[t := StartReturned(false)])
  }

  ghost predicate ServeEnds(s: State, s': State, err: bool) {
    s.serve.Serving? && s' == s.(serve := Ended, fields := s.fields.(serveErr := s.fields.serveErr || err))
  }

  ghost predicate CallStop(s: State, s': State, t: Tid) {
    t !in s.stopCalls && s' == s.(stopCalls := s.stopCalls[t := StopCall(WaitingLock, false)])
  }

  ghost predicate At(s: State, t: Tid, at: StopAt) {
    t in s.stopCalls && s.stopCalls[t].at == at
  }

  ghost predicate StopLocks(s: State, s': State, t: Tid) {
    && At(s, t, WaitingLock) && s.mu == None
    && var begun := s.(hist := s.hist.(stopBegun := true));
       s' == if s.fields.stopped then begun.(stopCalls := s.stopCalls[t := StopCall(StopReturned, false)])
             else begun.(mu := Some(t), fields := StopBegun(s.fields),
                         stopCalls := s.stopCalls[t := StopCall(AtGate, false)])
  }

  ghost predicate StopsGate(s: State, s': State, t: Tid) {
    At(s, t, AtGate) && s' == s.(gate := Stopping(s.gate), stopCalls := s.stopCalls[t := StopCall(AtShutdown, false)])
  }

  // The history of errors, after a part of Stop that met one or not.
  ghost function Met(h: History, t: Tid, err: bool): History {
    if err then h.(metError := h.metError + {t}) else h
  }

  ghost function Told(h: History, t: Tid, at: StopAt): History {
    if at.AtShutdown? then h.(shutDown := h.shutDown + {t}) else h.(closed := h.closed + {t})
  }

  // Shutdown of the HTTP server, then Close of the listener: either may fail when there is a server.
  ghost predicate ShutsDown(s: State, s': State, t: Tid, err: bool) {
    && (At(s, t, AtShutdown) || At(s, t, AtListener)) && (err ==> s.fields.started)
    && var next := if s.stopCalls[t].at.AtShutdown? then AtListener else AwaitingServe;
       s' == s.(stopCalls := s.stopCalls[t := StopCall(next, s.stopCalls[t].failed || err)],
                hist := Told(Met(s.hist, t, err), t, s.stopCalls[t].at))
  }

  ghost predicate SeesServeEnd(s: State, s': State, t: Tid) {
    && At(s, t, AwaitingServe) && !s.serve.Serving?
    && s' == s.(stopCalls := s.stopCalls[t := s.stopCalls[t].(at := TestingGate)])
  }

  // The loop of handlerGate.wait: sleep while handlers are running.
  ghost predicate TestsGate(s: State, s': State, t: Tid) {
    && (At(s, t, TestingGate) || At(s, t, GateWoken))
    && var next := if s.gate.active != 0 then GateAsleep else AtCleanup;
       s' == s.(gate := Waited(s.gate), stopCalls := s.stopCalls[t := s.stopCalls[t].(at := next)],
                hist := s.hist.(drained := s.hist.drained || next.AtCleanup?))
  }

  // Runs the endpoint cleanup if it is owed, and stops owing it if it succeeds.
  ghost predicate CleansUp(s: State, s': State, t: Tid, err: bool) {
    && At(s, t, AtCleanup)
    && var owed := s.fields.cleanup;
       s' == s.(fields := CleanedUp(s.fields, err),
                stopCalls := s.stopCalls[t := StopCall(AtResult, s.stopCalls[t].failed || (owed && err))],
                hist := Met(s.hist, t, owed && err).(cleanups := s.hist.cleanups + if owed && !err then 1 else 0))
  }

  ghost predicate StopReturns(s: State, s': State, t: Tid) {
    && At(s, t, AtResult)
    && s' == s.(mu := None, fields := StopEnded(s.fields, s.stopCalls[t].failed),
                stopCalls := s.stopCalls[t := StopCall(StopReturned, StopFails(s.fields, s.stopCalls[t].failed))],
                hist := if s.fields.serveErr then s.hist.(sawServeErr := s.hist.sawServeErr + {t}) else s.hist)
  }

  ghost predicate StopStep(s: State, s': State, t: Tid) {
    || StopLocks(s, s', t) || StopsGate(s, s', t) || SeesServeEnd(s, s', t)
    || TestsGate(s, s', t) || StopReturns(s, s', t)
    || (exists err :: ShutsDown(s, s', t, err)) || (exists err :: CleansUp(s, s', t, err))
  }

  ghost predicate RequestStep(s: State, s': State, t: Tid) {
    Arrive(s, s', t) || Enter(s, s', t) || Leave(s, s', t)
  }

  ghost predicate StartStep(s: State, s': State, t: Tid) {
    CallStart(s, s', t) || exists listens :: Start(s, s', t, listens)
  }

  ghost predicate Next(s: State, s': State) {
    || (exists err :: ServeEnds(s, s', err))
    || (exists t: Tid :: RequestStep(s, s', t) || StartStep(s, s', t) || CallStop(s, s', t) || StopStep(s, s', t))
  }

  /* ---------- The invariant ---------- */

  predicate Critical(at: StopAt) {
    !at.WaitingLock? && !at.StopReturned?
  }

  // What holds at each point of a Stop call.
  ghost predicate StopInv(s: State, t: Tid)
    requires t in s.stopCalls
  {
    var call := s.stopCalls[t];
    && (Critical(call.at) <==> s.mu == Some(t))
    && (Critical(call.at) ==> s.fields.stopping && !s.fields.stopped)
    && (Critical(call.at) && !call.at.AtGate? ==> s.gate.stopping)
    && (call.at.TestingGate? || call.at.GateAsleep? || call.at.GateWoken? ==> !s.serve.Serving?)
    && (call.at.GateAsleep? ==> s.gate.active != 0 && s.gate.cond)
    && (call.at.AtCleanup? || call.at.AtResult? ==> s.hist.drained)
    && (call.at.AtResult? && !call.failed ==> !s.fields.cleanup)
    && (call.at.StopReturned? && !call.failed ==> s.fields.stopped)
  }

  ghost predicate Inv(s: State) {
    && s.gate.active == |Running(s)|
    && (s.hist.drained ==> s.gate.stopping && s.gate.active == 0 && !s.serve.Serving?)
    && (s.gate.stopping ==> s.fields.stopping)
    && (s.fields.stopped ==> s.hist.drained && !s.fields.cleanup && !s.fields.serveErr)
    && (s.fields.started <==> !s.serve.Unborn?)
    && s.hist.starts == Bit(s.fields.started)
    && s.hist.cleanups + Bit(s.fields.cleanup) == s.hist.starts
    && (s.mu.Some? ==> s.mu.value in s.stopCalls)
    && (forall t :: t in s.stopCalls ==> StopInv(s, t))
  }

  lemma EnterKeeps(s: State, s': State, t: Tid)
    requires Inv(s) && (Arrive(s, s', t) || Enter(s, s', t))
    ensures Inv(s')
  {
    WhereMoved(s.requests, IsInHandler, t, s'.requests[t]);
    hide Where;
    forall u | u in s'.stopCalls
      ensures StopInv(s', u)
    {
      assert StopInv(s, u);
    }
  }

  lemma LeaveKeeps(s: State, s': State, t: Tid)
    requires Inv(s) && Leave(s, s', t)
    ensures Inv(s')
  {
    WhereMoved(s.requests, IsInHandler, t, Finished(false));
    hide Where;
    forall u | u in s'.stopCalls
      ensures StopInv(s', u)
    {
      assert StopInv(s, u);
    }
  }

  lemma StartKeeps(s: State, s': State, t: Tid)
    requires Inv(s) && StartStep(s, s', t)
    ensures Inv(s')
  {
    hide Where;
    forall u | u in s'.stopCalls
      ensures StopInv(s', u)
    {
      assert StopInv(s, u);
    }
  }

  lemma ServeEndsKeeps(s: State, s': State, err: bool)
    requires Inv(s) && ServeEnds(s, s', err)
    ensures Inv(s')
  {
    hide Where;
    forall u | u in s'.stopCalls
      ensures StopInv(s', u)
    {
      assert StopInv(s, u);
    }
  }

  lemma CallStopKeeps(s: State, s': State, t: Tid)
    requires Inv(s) && CallStop(s, s', t)
    ensures Inv(s')
  {
    hide Where;
    forall u | u in s'.stopCalls
      ensures StopInv(s', u)
    {
      if u != t {
        assert StopInv(s, u);
      }
    }
  }

  // A step of one Stop call that may hold the mutex leaves every other Stop call as it was.
  lemma OtherStopsKeep(s: State, s': State, t: Tid)
    requires Inv(s) && t in s'.stopCalls && s'.stopCalls == s.stopCalls[t := s'.stopCalls[t]]
    requires s.mu in {None, Some(t)} && s'.mu in {None, Some(t)}
    requires s.fields.stopped ==> s'.fields.stopped
    ensures forall u :: u in s'.stopCalls && u != t ==> StopInv(s', u)
  {
    forall u | u in s'.stopCalls && u != t
      ensures StopInv(s', u)
    {
      assert StopInv(s, u);
    }
  }

  lemma StopBeginsKeeps(s: State, s': State, t: Tid)
    requires Inv(s)
    requires StopLocks(s, s', t) || StopsGate(s, s', t) || exists err :: ShutsDown(s, s', t, err)
    ensures Inv(s')
  {
    hide Where;
    assert StopInv(s, t);
    OtherStopsKeep(s, s', t);
    assert StopInv(s', t);
  }

  lemma StopWaitsKeeps(s: State, s': State, t: Tid)
    requires Inv(s) && (SeesServeEnd(s, s', t) || TestsGate(s, s', t))
    ensures Inv(s')
  {
    hide Where;
    assert StopInv(s, t);
    OtherStopsKeep(s, s', t);
    assert StopInv(s', t);
  }

  lemma StopFinishesKeeps(s: State, s': State, t: Tid)
    requires Inv(s) && (StopReturns(s, s', t) || exists err :: CleansUp(s, s', t, err))
    ensures Inv(s')
  {
    hide Where;
    assert StopInv(s, t);
    OtherStopsKeep(s, s', t);
    assert StopInv(s', t);
  }

  lemma NextKeeps(s: State, s': State)
    requires Inv(s) && Next(s, s')
    ensures Inv(s')
  {
    hide Inv, Arrive, Enter, Leave, StartStep, CallStop, ServeEnds, StopLocks, StopsGate, ShutsDown, SeesServeEnd,
         TestsGate, CleansUp, StopReturns;
    if err :| ServeEnds(s, s', err) {
      ServeEndsKeeps(s, s', err);
    } else {
      var t: Tid :| RequestStep(s, s', t) || StartStep(s, s', t) || CallStop(s, s', t) || StopStep(s, s', t);
      if Leave(s, s', t) {
        LeaveKeeps(s, s', t);
      } else if Arrive(s, s', t) || Enter(s, s', t) {
        EnterKeeps(s, s', t);
      } else if StartStep(s, s', t) {
        StartKeeps(s, s', t);
      } else if CallStop(s, s', t) {
        CallStopKeeps(s, s', t);
      } else if StopReturns(s, s', t) || exists err :: CleansUp(s, s', t, err) {
        StopFinishesKeeps(s, s', t);
      } else if SeesServeEnd(s, s', t) || TestsGate(s, s', t) {
        StopWaitsKeeps(s, s', t);
      } else {
        StopBeginsKeeps(s, s', t);
      }
    }
  }

  lemma Inductive()
    ensures forall s :: Init(s) ==> Inv(s)
    ensures forall s, s' :: Inv(s) && Next(s, s') ==> Inv(s')
  {
    forall s | Init(s)
      ensures Inv(s)
    {
      assert Running(s) == {};
    }
    forall s, s' | Inv(s) && Next(s, s')
      ensures Inv(s')
    {
      NextKeeps(s, s');
    }
  }

  // Nothing is ever undone: a stopping server stays stopping and starts no more, a drained gate stays drained, a serve
  // error stays.
  ghost predicate Monotone(s: State, s': State) {
    && (s.fields.stopping ==> s'.fields.stopping && s'.hist.starts == s.hist.starts)
    && (s.hist.drained ==> s'.hist.drained)
    && (s.fields.serveErr ==> s'.fields.serveErr)
  }

  lemma StopMonotone(s: State, s': State, t: Tid)
    requires StopStep(s, s', t)
    ensures Monotone(s, s')
  {
    hide StopLocks, StopsGate, ShutsDown, SeesServeEnd, TestsGate, CleansUp, StopReturns, Monotone;
    if err :| CleansUp(s, s', t, err) {
      CleanupMonotone(s, s', t, err);
    } else if err :| ShutsDown(s, s', t, err) {
      ShutdownMonotone(s, s', t, err);
    } else {
      PlainMonotone(s, s', t);
    }
  }

  lemma CleanupMonotone(s: State, s': State, t: Tid, err: bool)
    requires CleansUp(s, s', t, err)
    ensures Monotone(s, s')
  {
  }

  lemma ShutdownMonotone(s: State, s': State, t: Tid, err: bool)
    requires ShutsDown(s, s', t, err)
    ensures Monotone(s, s')
  {
  }

  lemma PlainMonotone(s: State, s': State, t: Tid)
    requires
      || StopLocks(s, s', t) || StopsGate(s, s', t) || SeesServeEnd(s, s', t) || TestsGate(s, s', t)
      || StopReturns(s, s', t)
    ensures Monotone(s, s')
  {
  }

  lemma NextMonotone(s: State, s': State)
    requires Next(s, s')
    ensures Monotone(s, s')
  {
    hide Where, WakeAll, StopStep;
    if t: Tid :| StopStep(s, s', t) {
      StopMonotone(s, s', t);
    }
  }

  /* ---------- Why a call returned what it did ---------- */

  // Past the listener's Close, and not yet returned.
  predicate Waits(at: StopAt) {
    at.AwaitingServe? || at.TestingGate? || at.GateAsleep? || at.GateWoken? || at.AtCleanup? || at.AtResult?
  }

  ghost predicate ShutAndClosed(s: State, t: Tid) {
    t in s.hist.shutDown && t in s.hist.closed
  }

  // Up to its return a Stop has failed iff it met an error; its return adds the serve error.
  ghost predicate CauseInv(s: State, t: Tid)
    requires t in s.stopCalls
  {
    var call := s.stopCalls[t];
    && (call.at.StopReturned? ==> (call.failed <==> t in s.hist.metError || t in s.hist.sawServeErr))
    && (!call.at.StopReturned? ==> (call.failed <==> t in s.hist.metError) && t !in s.hist.sawServeErr)
    && (!call.at.WaitingLock? ==> s.hist.stopBegun)
    && (call.at.WaitingLock? || call.at.AtGate? ==> !call.failed)
    && (call.at.AtListener? ==> t in s.hist.shutDown)
    && (Waits(call.at) ==> ShutAndClosed(s, t))
    && (call.at.StopReturned? ==> ShutAndClosed(s, t) || (s.fields.stopped && !call.failed))
  }

  ghost predicate Causes(s: State) {
    && s.hist.metError <= s.stopCalls.Keys && s.hist.sawServeErr <= s.stopCalls.Keys
    && (s.fields.stopping <==> s.hist.stopBegun)
    && (s.fields.stopped ==> s.hist.stopBegun)
    && (s.gate.stopping ==> s.hist.stopBegun)
    && (forall t :: t in s.stopCalls ==> CauseInv(s, t))
    && (forall t :: t in s.requests && s.requests[t] == Finished(true) ==> s.gate.stopping)
  }

  lemma CallStopCauses(s: State, s': State, t: Tid)
    requires Causes(s) && CallStop(s, s', t)
    ensures Causes(s')
  {
    forall u | u in s'.stopCalls
      ensures CauseInv(s', u)
    {
      assert u in s.stopCalls ==> CauseInv(s, u);
    }
  }

  lemma StopLocksCauses(s: State, s': State, t: Tid)
    requires Causes(s) && StopLocks(s, s', t)
    ensures Causes(s')
  {
    forall u | u in s'.stopCalls
      ensures CauseInv(s', u)
    {
      assert u in s.stopCalls ==> CauseInv(s, u);
    }
  }

  lemma StopWaitsCauses(s: State, s': State, t: Tid)
    requires Causes(s) && (StopsGate(s, s', t) || SeesServeEnd(s, s', t) || TestsGate(s, s', t))
    ensures Causes(s')
  {
    forall u | u in s'.stopCalls
      ensures CauseInv(s', u)
    {
      assert u in s.stopCalls ==> CauseInv(s, u);
    }
  }

  lemma ErrorsCause(s: State, s': State, t: Tid, err: bool)
    requires Causes(s) && (ShutsDown(s, s', t, err) || CleansUp(s, s', t, err))
    ensures Causes(s')
  {
    forall u | u in s'.stopCalls
      ensures CauseInv(s', u)
    {
      assert u in s.stopCalls ==> CauseInv(s, u);
    }
  }

  lemma StopReturnsCauses(s: State, s': State, t: Tid)
    requires Causes(s) && StopReturns(s, s', t)
    ensures Causes(s')
  {
    forall u | u in s'.stopCalls
      ensures CauseInv(s', u)
    {
      assert u in s.stopCalls ==> CauseInv(s, u);
    }
  }

  lemma StopCauses(s: State, s': State, t: Tid)
    requires Causes(s) && StopStep(s, s', t)
    ensures Causes(s')
  {
    hide Causes, StopLocks, StopsGate, ShutsDown, SeesServeEnd, TestsGate, CleansUp, StopReturns;
    if StopLocks(s, s', t) {
      StopLocksCauses(s, s', t);
    } else if err :| ShutsDown(s, s', t, err) || CleansUp(s, s', t, err) {
      ErrorsCause(s, s', t, err);
    } else if StopReturns(s, s', t) {
      StopReturnsCauses(s, s', t);
    } else {
      StopWaitsCauses(s, s', t);
    }
  }

  lemma RequestCauses(s: State, s': State, t: Tid)
    requires Causes(s) && RequestStep(s, s', t)
    ensures Causes(s')
  {
    forall u | u in s'.stopCalls
      ensures CauseInv(s', u)
    {
      assert u in s.stopCalls ==> CauseInv(s, u);
    }
  }

  lemma StartCauses(s: State, s': State, t: Tid)
    requires Causes(s) && StartStep(s, s', t)
    ensures Causes(s')
  {
    forall u | u in s'.stopCalls
      ensures CauseInv(s', u)
    {
      assert u in s.stopCalls ==> CauseInv(s, u);
    }
  }

  lemma ServeCauses(s: State, s': State, err: bool)
    requires Causes(s) && ServeEnds(s, s', err)
    ensures Causes(s')
  {
    forall u | u in s'.stopCalls
      ensures CauseInv(s', u)
    {
      assert u in s.stopCalls ==> CauseInv(s, u);
    }
  }

  lemma NextCauses(s: State, s': State)
    requires Causes(s) && Next(s, s')
    ensures Causes(s')
  {
    hide Causes, RequestStep, StartStep, CallStop, StopStep, ServeEnds;
    if err :| ServeEnds(s, s', err) {
      ServeCauses(s, s', err);
    } else {
      var t: Tid :| RequestStep(s, s', t) || StartStep(s, s', t) || CallStop(s, s', t) || StopStep(s, s', t);
      if StopStep(s, s', t) {
        StopCauses(s, s', t);
      } else if CallStop(s, s', t) {
        CallStopCauses(s, s', t);
      } else if StartStep(s, s', t) {
        StartCauses(s, s', t);
      } else {
        RequestCauses(s, s', t);
      }
    }
  }

  lemma CausesHold(s: State)
    requires Runs.Reachable(Init, Next, s)
    ensures Causes(s)
  {
    assert forall u, v :: Causes(u) && Next(u, v) ==> Causes(v) by {
      forall u, v | Causes(u) && Next(u, v)
        ensures Causes(v)
      {
        NextCauses(u, v);
      }
    }
    hide Next;
    Runs.InvariantReachable(Init, Next, Causes, s);
  }

  /* ---------- Main results, over every interleaving ---------- */

  // A Stop returns an error exactly when shutting down, closing or cleaning up met one, or the serve error was set when
  // it returned; and one that returns none leaves the server stopped.
  lemma StopFailsExactly(s: State, t: Tid)
    requires Runs.Reachable(Init, Next, s) && At(s, t, StopReturned)
    ensures s.stopCalls[t].failed <==> t in s.hist.metError || t in s.hist.sawServeErr
    ensures !s.stopCalls[t].failed ==> s.fields.stopped
  {
    CausesHold(s);
    Inductive();
    Runs.InvariantReachable(Init, Next, Inv, s);
    assert CauseInv(s, t) && StopInv(s, t);
  }

  // A Stop that waits for serving or for the handlers, or that is past its waits, has shut the HTTP server down and
  // closed the listener; only a Stop of a server already stopped returns without.
  lemma StopInOrder(s: State, t: Tid)
    requires Runs.Reachable(Init, Next, s) && t in s.stopCalls
    ensures Waits(s.stopCalls[t].at) ==> ShutAndClosed(s, t)
    ensures s.stopCalls[t].at == StopReturned ==> ShutAndClosed(s, t) || s.fields.stopped
  {
    CausesHold(s);
    assert CauseInv(s, t);
  }

  // A Start succeeds exactly when its endpoint opens, no Start has succeeded, and no Stop has had the mutex.
  lemma StartsExactly(s: State, s': State, t: Tid, listens: bool)
    requires Runs.Reachable(Init, Next, s) && Start(s, s', t, listens)
    ensures s'.startCalls[t] == StartReturned(true) <==> listens && s.hist.starts == 0 && !s.hist.stopBegun
    ensures s'.startCalls[t] == StartReturned(true) ==> s'.serve.Serving? && s'.fields.cleanup
    ensures s'.startCalls[t] == StartReturned(true) || s'.startCalls[t] == StartReturned(false)
  {
    CausesHold(s);
    Inductive();
    Runs.InvariantReachable(Init, Next, Inv, s);
  }

  // A request is refused only once a Stop has begun.
  lemma RefusedOnlyWhenStopping(s: State, t: Tid)
    requires Runs.Reachable(Init, Next, s) && t in s.requests && s.requests[t] == Finished(true)
    ensures s.gate.stopping && s.hist.stopBegun
  {
    CausesHold(s);
  }

  // Once some Stop has waited for the handlers, no handler is running and none ever runs again; nor does the
  // serve goroutine.
  lemma DrainedForGood(run: seq<State>, i: nat, j: nat)
    requires Runs.IsRun(Init, Next, run) && i <= j < |run| && run[i].hist.drained
    ensures Running(run[j]) == {} && !run[j].serve.Serving?
  {
    Inductive();
    var drained := (u: State) => u.hist.drained;
    assert forall u, v :: drained(u) && Next(u, v) ==> drained(v) by {
      forall u, v | drained(u) && Next(u, v)
        ensures drained(v)
      {
        NextMonotone(u, v);
      }
    }
    hide Next;
    Runs.StableOverRun(Init, Next, Inv, drained, run, i, j);
    Runs.InvariantOverRun(Init, Next, Inv, run, j);
  }

  // The endpoint cleanup starts only when no handler is running and the serve goroutine has ended, inside a
  // Stop that owns the server's mutex.
  lemma CleanupAfterDrain(s: State, s': State, t: Tid, err: bool)
    requires Runs.Reachable(Init, Next, s) && CleansUp(s, s', t, err)
    ensures s.hist.drained && Running(s) == {} && !s.serve.Serving? && s.mu == Some(t)
    ensures s.fields.cleanup ==> s.serve.Ended?
  {
    Inductive();
    Runs.InvariantReachable(Init, Next, Inv, s);
    assert StopInv(s, t);
  }

  // At most one Start succeeds, and the cleanup it owes is done at most once.
  lemma OneStartOneCleanup(s: State)
    requires Runs.Reachable(Init, Next, s)
    ensures s.hist.cleanups <= s.hist.starts <= 1
    ensures s.hist.starts == s.hist.cleanups + Bit(s.fields.cleanup)
  {
    Inductive();
    Runs.InvariantReachable(Init, Next, Inv, s);
  }

  // No Start that gets the mutex after a Stop has had it succeeds.
  lemma NoStartAfterStop(run: seq<State>, i: nat, j: nat, t: Tid)
    requires Runs.IsRun(Init, Next, run) && i + 1 <= j < |run| && StopLocks(run[i], run[i + 1], t)
    ensures run[j].hist.starts == run[i].hist.starts
  {
    Inductive();
    Runs.InvariantOverRun(Init, Next, Inv, run, i);
    var n := run[i].hist.starts;
    var refused := (u: State) => u.fields.stopping && u.hist.starts == n;
    assert refused(run[i + 1]);
    assert forall u, v :: refused(u) && Next(u, v) ==> refused(v) by {
      forall u, v | refused(u) && Next(u, v)
        ensures refused(v)
      {
        NextMonotone(u, v);
      }
    }
    hide Next, Inv;
    Runs.StableOverRun(Init, Next, Inv, refused, run, i + 1, j);
  }

  // A Stop that returned no error left nothing behind: handlers drained, serving ended, cleanup done.
  lemma StopSucceeded(s: State, t: Tid)
    requires Runs.Reachable(Init, Next, s) && At(s, t, StopReturned) && !s.stopCalls[t].failed
    ensures s.fields.stopped && Running(s) == {} && !s.serve.Serving? && !s.fields.cleanup
  {
    Inductive();
    Runs.InvariantReachable(Init, Next, Inv, s);
    assert StopInv(s, t);
  }

  // A serve error is never swallowed: once it is set, no Stop returns nil, and none has.
  lemma ServeErrorReported(run: seq<State>, i: nat, j: nat, t: Tid)
    requires Runs.IsRun(Init, Next, run) && i <= j < |run| && run[i].fields.serveErr && At(run[j], t, StopReturned)
    ensures run[j].fields.serveErr && run[j].stopCalls[t].failed && !run[j].fields.stopped
  {
    Inductive();
    var failed := (u: State) => u.fields.serveErr;
    assert forall u, v :: failed(u) && Next(u, v) ==> failed(v) by {
      forall u, v | failed(u) && Next(u, v)
        ensures failed(v)
      {
        NextMonotone(u, v);
      }
    }
    hide Next;
    Runs.StableOverRun(Init, Next, Inv, failed, run, i, j);
    Runs.InvariantOverRun(Init, Next, Inv, run, j);
    assert StopInv(run[j], t);
  }

  // A Stop asleep at the gate is always waiting for a handler that is still running.
  lemma NoLostDrainWakeup(s: State, t: Tid)
    requires Runs.Reachable(Init, Next, s) && At(s, t, GateAsleep)
    ensures Running(s) != {}
  {
    Inductive();
    Runs.InvariantReachable(Init, Next, Inv, s);
    assert StopInv(s, t);
  }

  // A Stop that owns the mutex can always go on, unless it is waiting for the serve goroutine or for a handler.
  lemma StopWaitsOnlyForWork(s: State, t: Tid)
    requires Runs.Reachable(Init, Next, s) && s.mu == Some(t)
    ensures
      || (exists s' :: StopStep(s, s', t))
      || (At(s, t, AwaitingServe) && s.serve.Serving?)
      || (At(s, t, GateAsleep) && Running(s) != {})
  {
    Inductive();
    Runs.InvariantReachable(Init, Next, Inv, s);
    assert StopInv(s, t);
    hide Where, Runs.Reachable, Next;
    var call := s.stopCalls[t];
    if call.at.TestingGate? || call.at.GateWoken? {
      var next := if s.gate.active != 0 then GateAsleep else AtCleanup;
      var s' := s.(gate := Waited(s.gate), stopCalls := s.stopCalls[t := call.(at := next)],
                   hist := s.hist.(drained := s.hist.drained || next.AtCleanup?));
      assert TestsGate(s, s', t) && StopStep(s, s', t);
    }
    match call.at
    case AtGate =>
      var s' := s.(gate := Stopping(s.gate), stopCalls := s.stopCalls[t := StopCall(AtShutdown, false)]);
      assert StopsGate(s, s', t) && StopStep(s, s', t);
    case AtShutdown =>
      var s' := s.(stopCalls := s.stopCalls[t := StopCall(AtListener, call.failed)], hist := Told(s.hist, t, call.at));
      assert ShutsDown(s, s', t, false) && StopStep(s, s', t);
    case AtListener =>
      var s' := s.(stopCalls := s.stopCalls[t := StopCall(AwaitingServe, call.failed)],
                   hist := Told(s.hist, t, call.at));
      assert ShutsDown(s, s', t, false) && StopStep(s, s', t);
    case AwaitingServe =>
      if !s.serve.Serving? {
        var s' := s.(stopCalls := s.stopCalls[t := call.(at := TestingGate)]);
        assert SeesServeEnd(s, s', t) && StopStep(s, s', t);
      }
    case GateAsleep =>
      NoLostDrainWakeup(s, t);
    case AtCleanup =>
      var s' := s.(fields := CleanedUp(s.fields, false),
                   stopCalls := s.stopCalls[t := StopCall(AtResult, call.failed)],
                   hist := s.hist.(cleanups := s.hist.cleanups + Bit(s.fields.cleanup)));
      assert CleansUp(s, s', t, false) && StopStep(s, s', t);
    case AtResult =>
      var s' := s.(mu := None, fields := StopEnded(s.fields, call.failed),
                   stopCalls := s.stopCalls[t := StopCall(StopReturned, StopFails(s.fields, call.failed))],
                   hist := if s.fields.serveErr then s.hist.(sawServeErr := s.hist.sawServeErr + {t}) else s.hist);
      assert StopReturns(s, s', t) && StopStep(s, s', t);
    case _ =>
  }

  /* ---------- The critical sections, on the objects' own fields ---------- */

  class HandlerGate {
    var stopping: bool
    var active: int
    var cond: bool

    ghost function View(): Gate
      reads this
    {
      Gate(stopping, active, cond)
    }

    constructor ()
      ensures View() == Gate(false, 0, false)
    {
      stopping, active, cond := false, 0, false;
    }

    method Enter() returns (ok: bool)
      modifies this
      ensures ok <==> !old(stopping)
      ensures View() == Entered(old(View()))
      ensures stopping == old(stopping) && active == if ok then old(active) + 1 else old(active)
    {
      if stopping {
        return false;
      }
      active := active + 1;
      ok := true;
    }

    method Leave() returns (broadcast: bool)
      modifies this
      ensures View() == Left(old(View()))
      ensures broadcast == LeaveWakes(old(View()))
      ensures active == old(active) - 1 && stopping == old(stopping) && cond == old(cond)
      ensures broadcast <==> old(active) == 1 && old(cond)
    {
      active := active - 1;
      broadcast := active == 0 && cond;
    }

    method Stop()
      modifies this
      ensures View() == Stopping(old(View()))
      ensures stopping && active == old(active)
    {
      stopping := true;
    }

    // One pass of the loop in wait: whether the caller must sleep.
    method WaitTest() returns (mustSleep: bool)
      modifies this
      ensures View() == Waited(old(View()))
      ensures mustSleep <==> active != 0
      ensures cond && active == old(active) && stopping == old(stopping)
    {
      if !cond {
        cond := true;
      }
      mustSleep := active != 0;
    }
  }

  class Server {
    var stopping: bool
    var stopped: bool
    var started: bool
    var cleanup: bool
    var serveErr: bool

    ghost function View(): Fields
      reads this
    {
      Fields(stopping, stopped, started, cleanup, serveErr)
    }

    constructor ()
      ensures View() == Fields(false, false, false, false, false)
    {
      stopping, stopped, started, cleanup, serveErr := false, false, false, false, false;
    }

    method Start(listens: bool) returns (ok: bool)
      modifies this
      ensures ok == MayStart(old(View()), listens)
      ensures View() == if ok then Started(old(View())) else old(View())
      ensures ok <==> !old(stopping) && !old(stopped) && !old(started) && listens
      ensures ok ==> started && cleanup && !stopping && !stopped
    {
      if stopping || stopped {
        return false;
      }
      if started {
        return false;
      }
      if !listens {
        return false;
      }
      cleanup := true;
      started := true;
      ok := true;
    }

    method BeginStop() returns (already: bool)
      modifies this
      ensures already == old(stopped)
      ensures View() == if already then old(View()) else StopBegun(old(View()))
      ensures !already ==> stopping && stopped == old(stopped) && started == old(started) && cleanup == old(cleanup)
    {
      if stopped {
        return true;
      }
      stopping := true;
      already := false;
    }

    // `err` is what the cleanup function would return if it is called.
    method RunCleanup(err: bool) returns (failed: bool)
      modifies this
      ensures failed <==> old(cleanup) && err
      ensures View() == CleanedUp(old(View()), err)
      ensures cleanup <==> old(cleanup) && err
      ensures stopping == old(stopping) && stopped == old(stopped) && started == old(started)
    {
      failed := false;
      if cleanup {
        if err {
          failed := true;
        } else {
          cleanup := false;
        }
      }
    }

    method EndStop(failedSoFar: bool) returns (failed: bool)
      modifies this
      ensures failed == StopFails(old(View()), failedSoFar)
      ensures View() == StopEnded(old(View()), failedSoFar)
      ensures failed <==> failedSoFar || old(serveErr)
      ensures stopped <==> old(stopped) || !failed
    {
      failed := failedSoFar || serveErr;
      if !failed {
        stopped := true;
      }
    }
  }
}
