// process/process.go: the event protocol of a started process.
module ProcessEvents {
  import opened Basics
  import opened Io

  datatype Stream = Stdout | Stderr

  datatype Kind = Completed | Failed | Canceled

  datatype Event = Started | Chunk(stream: Stream, data: seq<byte>) | Terminal(kind: Kind)

  // What Wait returns: the exit code, whether the context had ended, whether Err is set.
  datatype Result = Result(exitCode: int, canceled: bool, err: bool)

  // What became of the child, as collect finds it: whether cmd.Wait returned an error, the exit code, and whether the
  // context had ended at each of the two looks.
  datatype Child = Child(waitErr: bool, exitCode: int, endedFirst: bool, endedThen: bool)

  // A result and a kind of terminal event that say what became of the child.
  ghost predicate Reports(r: Result, kind: Kind, child: Child) {
    && r.exitCode == child.exitCode
    && (r.err <==> child.waitErr || child.endedFirst)
    && (r.canceled <==> child.endedThen)
    && (kind.Canceled? <==> child.endedThen)
    && (kind.Failed? <==> !child.endedThen && (child.waitErr || child.exitCode != 0))
    && (kind.Completed? <==> !child.endedThen && !child.waitErr && child.exitCode == 0)
  }

  // The bytes a trace carries for one stream.
  function BytesOf(trace: seq<Event>, stream: Stream): seq<byte> {
    if |trace| == 0 then []
    else BytesOf(DropLast(trace), stream) +
         match Last(trace)
         case Chunk(s, data) => if s == stream then data else []
         case _ => []
  }

  lemma BytesGrow(trace: seq<Event>, e: Event, stream: Stream)
    ensures BytesOf(trace + [e], stream) ==
            BytesOf(trace, stream) + if e.Chunk? && e.stream == stream then e.data else []
  {
    assert DropLast(trace + [e]) == trace;
  }

  // collect's classification. The context is looked at twice: for Err first, for Canceled afterwards.
  function Collected(waitErr: bool, exitCode: int, endedFirst: bool, endedThen: bool): Result {
    Result(exitCode, endedThen, waitErr || endedFirst)
  }

  function KindOf(waitErr: bool, exitCode: int, endedThen: bool): Kind {
    if endedThen then Canceled else if waitErr || exitCode != 0 then Failed else Completed
  }

  // The terminal event's kind can be read off the result.
  ghost predicate Matches(kind: Kind, r: Result) {
    kind == if r.canceled then Canceled else if r.err || r.exitCode != 0 then Failed else Completed
  }

  // It agrees with the result although the context is looked at twice; a context that ends between the two looks,
  // after a clean exit, and only that, gives a canceled result without an error.
  lemma KindMatches(waitErr: bool, exitCode: int, endedFirst: bool, endedThen: bool)
    requires endedFirst ==> endedThen
    ensures Matches(KindOf(waitErr, exitCode, endedThen), Collected(waitErr, exitCode, endedFirst, endedThen))
    ensures var r := Collected(waitErr, exitCode, endedFirst, endedThen);
            r.canceled && !r.err <==> !waitErr && !endedFirst && endedThen
  {
  }
}

// Start, the two copiers of the child's output, and the collector, interleaved delivery by delivery.
module ProcessTrace {
  import opened Basics
  import opened Io
  import opened ProcessEvents
  import Runs

  datatype Emitter = Starter | Copier(stream: Stream) | Collector

  // Where an emitter is: about to emit once it may, or delivering to the sinks one by one.
  datatype Pc = Idle | Pending(event: Event) | Emitting(event: Event, next: nat) | Finished

  // `sinks` says which sinks are non-nil; `trace` is the completed emissions, `written` the bytes of every
  // Write call so far; `child` is what became of the child; `waits` is what calls of Wait returned.
  datatype State = State(
    sinks: seq<bool>, logs: seq<seq<Event>>, mu: Option<Emitter>, pcs: map<Emitter, Pc>,
    child: Option<Child>, outcome: Option<Result>, result: Option<Result>, done: bool, waits: map<nat, Result>,
    trace: seq<Event>, written: map<Stream, seq<byte>>)

  ghost predicate HasAll(s: State) {
    && (forall e: Emitter :: e in s.pcs)
    && (forall stream: Stream :: stream in s.written)
    && |s.logs| == |s.sinks|
  }

  // The child has been started and Start is about to deliver the started event, without the sink mutex.
  ghost predicate Init(s: State) {
    && HasAll(s)
    && s.mu == None && s.child == None && s.outcome == None && s.result == None && !s.done
    && s.waits == map[] && s.trace == []
    && (forall i :: 0 <= i < |s.logs| ==> s.logs[i] == [])
    && s.pcs[Starter] == Emitting(Started, 0)
    && (forall e :: e in s.pcs && e != Starter ==> s.pcs[e].Idle?)
    && (forall t :: t in s.written ==> s.written[t] == [])
  }

  // outputReady is closed, and the collector is running.
  ghost predicate Ready(s: State)
    requires HasAll(s)
  {
    s.pcs[Starter].Finished?
  }

  ghost predicate Writes(s: State, s': State, stream: Stream, data: seq<byte>)
    requires HasAll(s)
  {
    && s.pcs[Copier(stream)].Idle?
    && s' == s.(pcs := s.pcs[Copier(stream) := Pending(Chunk(stream, data))],
                written := s.written[stream := s.written[stream] + data])
  }

  ghost predicate CopierEnds(s: State, s': State, stream: Stream)
    requires HasAll(s)
  {
    s.pcs[Copier(stream)].Idle? && s' == s.(pcs := s.pcs[Copier(stream) := Finished])
  }

  // cmd.Wait returns, which it does only after both copiers have ended.
  ghost predicate CmdReturns(s: State, s': State, waitErr: bool, exitCode: int, endedFirst: bool, endedThen: bool)
    requires HasAll(s)
  {
    && Ready(s) && s.pcs[Collector].Idle? && (endedFirst ==> endedThen)
    && (forall stream :: s.pcs[Copier(stream)].Finished?)
    && s' == s.(child := Some(Child(waitErr, exitCode, endedFirst, endedThen)),
                outcome := Some(Collected(waitErr, exitCode, endedFirst, endedThen)),
                pcs := s.pcs[Collector := Pending(Terminal(KindOf(waitErr, exitCode, endedThen)))])
  }

  ghost predicate Locks(s: State, s': State, e: Emitter)
    requires HasAll(s)
  {
    && e in s.pcs && s.pcs[e].Pending? && Ready(s) && s.mu == None
    && s' == s.(mu := Some(e), pcs := s.pcs[e := Emitting(s.pcs[e].event, 0)])
  }

  ghost predicate Delivers(s: State, s': State, e: Emitter)
    requires HasAll(s)
  {
    && e in s.pcs && s.pcs[e].Emitting? && s.pcs[e].next < |s.sinks|
    && var n := s.pcs[e].next;
       s' == s.(logs := if s.sinks[n] then s.logs[n := s.logs[n] + [s.pcs[e].event]] else s.logs,
                pcs := s.pcs[e := Emitting(s.pcs[e].event, n + 1)])
  }

  // The end of emit: the mutex is released, and Start closes outputReady.
  ghost predicate Ends(s: State, s': State, e: Emitter)
    requires HasAll(s)
  {
    && e in s.pcs && s.pcs[e].Emitting? && s.pcs[e].next == |s.sinks|
    && var event := s.pcs[e].event;
       s' == s.(mu := if e == Starter then s.mu else None,
                trace := s.trace + [event],
                pcs := s.pcs[e := if e.Copier? then Idle else Finished])
  }

  ghost predicate Publishes(s: State, s': State)
    requires HasAll(s)
  {
    && s.pcs[Collector].Finished?
    && s' == if s.result.None? then s.(result := s.outcome) else s.(done := true)
  }

  ghost predicate Waits(s: State, s': State, t: nat)
    requires HasAll(s)
  {
    s.done && s.result.Some? && t !in s.waits && s' == s.(waits := s.waits[t := s.result.value])
  }

  ghost predicate EmitStep(s: State, s': State)
    requires HasAll(s)
  {
    exists e :: Locks(s, s', e) || Delivers(s, s', e) || Ends(s, s', e)
  }

  ghost predicate ChildStep(s: State, s': State)
    requires HasAll(s)
  {
    || (exists stream, data :: Writes(s, s', stream, data))
    || (exists stream :: CopierEnds(s, s', stream))
    || (exists waitErr, exitCode, endedFirst, endedThen :: CmdReturns(s, s', waitErr, exitCode, endedFirst, endedThen))
  }

  ghost predicate Next(s: State, s': State) {
    && HasAll(s)
    && (EmitStep(s, s') || ChildStep(s, s') || Publishes(s, s') || exists t :: Waits(s, s', t))
  }

  /* ---------- The invariant ---------- */

  // A trace is a started event, then chunks, then at most one terminal event.
  ghost predicate Grammar(trace: seq<Event>, ended: bool) {
    && |trace| > 0 && trace[0] == Started
    && (ended ==> |trace| > 1 && Last(trace).Terminal?)
    && forall i :: 0 < i < (if ended then |trace| - 1 else |trace|) ==> trace[i].Chunk?
  }

  // The one emitter that is delivering, if any: Start before outputReady, then the owner of the mutex.
  ghost function Active(s: State): Option<Emitter>
    requires HasAll(s)
  {
    if Ready(s) then s.mu else Some(Starter)
  }

  ghost predicate PcInv(s: State, e: Emitter)
    requires HasAll(s)
  {
    && (s.pcs[e].Emitting? <==> Active(s) == Some(e))
    && (s.pcs[e].Emitting? ==> s.pcs[e].next <= |s.sinks|)
    && match e
       case Starter => s.pcs[e].Finished? || (s.pcs[e].Emitting? && s.pcs[e].event == Started)
       case Copier(stream) =>
         s.pcs[e].Pending? || s.pcs[e].Emitting? ==> s.pcs[e].event.Chunk? && s.pcs[e].event.stream == stream
       case Collector =>
         && (s.pcs[e].Idle? <==> s.outcome.None?)
         && (s.pcs[e].Pending? || s.pcs[e].Emitting? ==>
               && s.pcs[e].event.Terminal? && Matches(s.pcs[e].event.kind, s.outcome.value)
               && s.child.Some? && Reports(s.outcome.value, s.pcs[e].event.kind, s.child.value))
         && (!s.pcs[e].Idle? ==> Ready(s) && forall stream :: s.pcs[Copier(stream)].Finished?)
  }

  // The event under way, if it has reached sink i.
  ghost function Reached(s: State, i: nat): seq<Event>
    requires HasAll(s)
  {
    if Active(s).Some? && s.pcs[Active(s).value].Emitting? && s.pcs[Active(s).value].next > i
    then [s.pcs[Active(s).value].event] else []
  }

  ghost predicate LogInv(s: State, i: nat)
    requires HasAll(s) && i < |s.sinks|
  {
    s.logs[i] == if s.sinks[i] then s.trace + Reached(s, i) else []
  }

  ghost predicate TraceInv(s: State)
    requires HasAll(s)
  {
    && (if Ready(s) then Grammar(s.trace, s.pcs[Collector].Finished?) else s.trace == [])
    && (s.pcs[Collector].Finished? ==>
          && Ready(s) && s.outcome.Some? && Matches(Last(s.trace).kind, s.outcome.value)
          && s.child.Some? && Reports(s.outcome.value, Last(s.trace).kind, s.child.value))
  }

  // The chunks delivered and the one in flight are exactly what has been written.
  ghost predicate BytesInv(s: State, stream: Stream)
    requires HasAll(s)
  {
    s.written[stream] == BytesOf(s.trace, stream) + InFlight(s, stream)
  }

  // The bytes of a write that has begun and not ended.
  ghost function InFlight(s: State, stream: Stream): seq<byte>
    requires HasAll(s)
  {
    match s.pcs[Copier(stream)]
    case Pending(Chunk(_, data)) => data
    case Emitting(Chunk(_, data), _) => data
    case _ => []
  }

  ghost predicate ResultInv(s: State)
    requires HasAll(s)
  {
    && (s.result.Some? ==> s.result == s.outcome && s.pcs[Collector].Finished?)
    && (s.done ==> s.result.Some?)
    && (forall t :: t in s.waits ==> s.done && s.waits[t] == s.result.value)
  }

  ghost predicate Inv(s: State) {
    && HasAll(s)
    && (!Ready(s) ==> s.mu == None)
    && (forall e :: PcInv(s, e))
    && (forall i :: 0 <= i < |s.sinks| ==> LogInv(s, i))
    && (forall stream :: BytesInv(s, stream))
    && TraceInv(s) && ResultInv(s)
  }

  lemma BytesKeep(s: State, s': State)
    requires Inv(s) && Next(s, s')
    ensures HasAll(s')
    ensures forall stream :: BytesInv(s', stream)
  {
    NextHasAll(s, s');
    hide HasAll, Locks, Delivers, Ends, Writes, ChildStep, Publishes, Waits;
    forall stream
      ensures BytesInv(s', stream)
    {
      assert BytesInv(s, stream) && PcInv(s, Copier(stream));
      if EmitStep(s, s') {
        var e :| Locks(s, s', e) || Delivers(s, s', e) || Ends(s, s', e);
        BytesEmit(s, s', e, stream);
      } else if str, data :| Writes(s, s', str, data) {
        BytesWrite(s, s', str, data, stream);
      } else if ChildStep(s, s') {
        BytesChild(s, s', stream);
      } else {
        BytesWait(s, s', stream);
      }
    }
  }

  lemma EmitHasAll(s: State, s': State)
    requires HasAll(s) && EmitStep(s, s')
    ensures HasAll(s')
  {
  }

  lemma ChildHasAll(s: State, s': State)
    requires HasAll(s) && ChildStep(s, s')
    ensures HasAll(s')
  {
  }

  lemma NextHasAll(s: State, s': State)
    requires Next(s, s')
    ensures HasAll(s')
  {
    hide EmitStep, ChildStep;
    if EmitStep(s, s') {
      EmitHasAll(s, s');
    } else if ChildStep(s, s') {
      ChildHasAll(s, s');
    }
  }

  lemma BytesEmit(s: State, s': State, e: Emitter, stream: Stream)
    requires HasAll(s) && BytesInv(s, stream) && PcInv(s, Copier(stream)) && PcInv(s, e)
    requires Locks(s, s', e) || Delivers(s, s', e) || Ends(s, s', e)
    ensures HasAll(s') && BytesInv(s', stream)
  {
    hide BytesOf;
    if Ends(s, s', e) {
      BytesEnd(s, s', e, stream);
    } else {
      assert s'.trace == s.trace && InFlight(s', stream) == InFlight(s, stream);
    }
  }

  lemma BytesEnd(s: State, s': State, e: Emitter, stream: Stream)
    requires HasAll(s) && BytesInv(s, stream) && PcInv(s, Copier(stream)) && PcInv(s, e)
    requires Ends(s, s', e)
    ensures HasAll(s') && BytesInv(s', stream)
  {
    hide BytesOf;
    BytesGrow(s.trace, s.pcs[e].event, stream);
  }

  lemma BytesWrite(s: State, s': State, str: Stream, data: seq<byte>, stream: Stream)
    requires HasAll(s) && BytesInv(s, stream) && Writes(s, s', str, data)
    ensures HasAll(s') && BytesInv(s', stream)
  {
  }

  lemma BytesChild(s: State, s': State, stream: Stream)
    requires HasAll(s) && BytesInv(s, stream) && ChildStep(s, s')
    requires forall str, data :: !Writes(s, s', str, data)
    ensures HasAll(s') && BytesInv(s', stream)
  {
    hide BytesOf, Writes;
    if str :| CopierEnds(s, s', str) {
      assert InFlight(s', stream) == InFlight(s, stream);
    } else {
      assert s'.pcs[Copier(stream)] == s.pcs[Copier(stream)];
    }
  }

  lemma BytesWait(s: State, s': State, stream: Stream)
    requires HasAll(s) && BytesInv(s, stream) && (Publishes(s, s') || exists t :: Waits(s, s', t))
    ensures HasAll(s') && BytesInv(s', stream)
  {
    hide BytesOf;
    assert s'.pcs == s.pcs;
  }

  lemma LocksKeeps(s: State, s': State, e: Emitter)
    requires Inv(s) && Locks(s, s', e)
    ensures Inv(s')
  {
    BytesKeep(s, s');
    hide BytesInv;
    assert PcInv(s, e);
    forall f
      ensures PcInv(s', f)
    {
      assert PcInv(s, f);
    }
    forall i | 0 <= i < |s'.sinks|
      ensures LogInv(s', i)
    {
      assert LogInv(s, i);
    }
  }

  lemma DeliversLogs(s: State, s': State, e: Emitter)
    requires Inv(s) && Delivers(s, s', e)
    ensures HasAll(s') && forall i :: 0 <= i < |s'.sinks| ==> LogInv(s', i)
  {
    assert PcInv(s, e);
    hide BytesInv, TraceInv, ResultInv, PcInv;
    forall i | 0 <= i < |s'.sinks|
      ensures LogInv(s', i)
    {
      assert LogInv(s, i);
    }
  }

  lemma DeliversKeeps(s: State, s': State, e: Emitter)
    requires Inv(s) && Delivers(s, s', e)
    ensures Inv(s')
  {
    BytesKeep(s, s');
    DeliversLogs(s, s', e);
    hide BytesInv, LogInv;
    assert PcInv(s, e);
    forall f
      ensures PcInv(s', f)
    {
      assert PcInv(s, f);
    }
  }

  lemma EndsKeeps(s: State, s': State, e: Emitter)
    requires Inv(s) && Ends(s, s', e)
    ensures Inv(s')
  {
    BytesKeep(s, s');
    hide BytesInv;
    assert PcInv(s, e);
    forall f
      ensures PcInv(s', f)
    {
      assert PcInv(s, f);
    }
    forall i | 0 <= i < |s'.sinks|
      ensures LogInv(s', i)
    {
      assert LogInv(s, i);
    }
    EndsTrace(s, s', e);
  }

  lemma EndsTrace(s: State, s': State, e: Emitter)
    requires Inv(s) && Ends(s, s', e)
    ensures HasAll(s') && TraceInv(s')
  {
    assert PcInv(s, e) && PcInv(s, Starter) && PcInv(s, Collector);
  }

  lemma WritesKeeps(s: State, s': State, stream: Stream, data: seq<byte>)
    requires Inv(s) && Writes(s, s', stream, data)
    ensures Inv(s')
  {
    BytesKeep(s, s');
    hide BytesInv;
    assert PcInv(s, Collector) && PcInv(s, Starter);
    forall f
      ensures PcInv(s', f)
    {
      assert PcInv(s, f);
    }
    forall i | 0 <= i < |s'.sinks|
      ensures LogInv(s', i)
    {
      assert LogInv(s, i);
    }
  }

  lemma CopierEndsKeeps(s: State, s': State, stream: Stream)
    requires Inv(s) && CopierEnds(s, s', stream)
    ensures Inv(s')
  {
    BytesKeep(s, s');
    hide BytesInv;
    assert PcInv(s, Collector) && PcInv(s, Starter);
    forall f
      ensures PcInv(s', f)
    {
      assert PcInv(s, f);
    }
    forall i | 0 <= i < |s'.sinks|
      ensures LogInv(s', i)
    {
      assert LogInv(s, i);
    }
  }

  lemma CmdReturnsKeeps(s: State, s': State, waitErr: bool, exitCode: int, endedFirst: bool, endedThen: bool)
    requires Inv(s) && CmdReturns(s, s', waitErr, exitCode, endedFirst, endedThen)
    ensures Inv(s')
  {
    BytesKeep(s, s');
    hide BytesInv;
    KindMatches(waitErr, exitCode, endedFirst, endedThen);
    assert PcInv(s, Collector) && PcInv(s, Starter);
    forall f
      ensures PcInv(s', f)
    {
      assert PcInv(s, f);
    }
    forall i | 0 <= i < |s'.sinks|
      ensures LogInv(s', i)
    {
      assert LogInv(s, i);
    }
  }

  lemma WaitKeeps(s: State, s': State)
    requires Inv(s) && (Publishes(s, s') || exists t :: Waits(s, s', t))
    ensures Inv(s')
  {
    BytesKeep(s, s');
    hide BytesInv;
    forall f
      ensures PcInv(s', f)
    {
      assert PcInv(s, f);
    }
    forall i | 0 <= i < |s'.sinks|
      ensures LogInv(s', i)
    {
      assert LogInv(s, i);
    }
    assert PcInv(s, Collector);
  }

  lemma NextKeeps(s: State, s': State)
    requires Inv(s) && Next(s, s')
    ensures Inv(s')
  {
    assert HasAll(s);
    hide Inv, HasAll, Locks, Delivers, Ends, Writes, CopierEnds, CmdReturns, Publishes, Waits;
    if EmitStep(s, s') {
      var e :| Locks(s, s', e) || Delivers(s, s', e) || Ends(s, s', e);
      if Locks(s, s', e) {
        LocksKeeps(s, s', e);
      } else if Delivers(s, s', e) {
        DeliversKeeps(s, s', e);
      } else {
        EndsKeeps(s, s', e);
      }
    } else if stream, data :| Writes(s, s', stream, data) {
      WritesKeeps(s, s', stream, data);
    } else if stream :| CopierEnds(s, s', stream) {
      CopierEndsKeeps(s, s', stream);
    } else if waitErr, exitCode, endedFirst, endedThen :| CmdReturns(s, s', waitErr, exitCode, endedFirst, endedThen) {
      CmdReturnsKeeps(s, s', waitErr, exitCode, endedFirst, endedThen);
    } else {
      WaitKeeps(s, s');
    }
  }

  lemma Inductive()
    ensures forall s :: Init(s) ==> Inv(s)
    ensures forall s, s' :: Inv(s) && Next(s, s') ==> Inv(s')
  {
    forall s | Init(s)
      ensures Inv(s)
    {
      forall e
        ensures PcInv(s, e)
      {
      }
    }
    forall s, s' | Inv(s) && Next(s, s')
      ensures Inv(s')
    {
      NextKeeps(s, s');
    }
  }

  /* ---------- Main results, over every interleaving ---------- */

  // What a sink has seen of a trace and the event after it keeps to the grammar.
  lemma GrammarSeen(s: State, i: nat)
    requires Inv(s)
    ensures var seen := s.trace + Reached(s, i); |seen| > 0 ==> Grammar(seen, Last(seen).Terminal?)
  {
    assert PcInv(s, Starter) && PcInv(s, Collector);
    if Active(s).Some? {
      assert PcInv(s, Active(s).value);
    }
  }

  // At every moment each non-nil sink has seen the same sequence, up to the one event now being delivered: a
  // started event, then chunks, then at most one terminal event. A nil sink sees nothing.
  lemma SinksAgree(s: State, i: nat)
    requires Runs.Reachable(Init, Next, s) && HasAll(s) && i < |s.sinks|
    ensures !s.sinks[i] ==> s.logs[i] == []
    ensures s.sinks[i] ==> s.trace <= s.logs[i] && |s.logs[i]| <= |s.trace| + 1
    ensures s.sinks[i] && |s.logs[i]| > 0 ==> Grammar(s.logs[i], Last(s.logs[i]).Terminal?)
  {
    Inductive();
    Runs.InvariantReachable(Init, Next, Inv, s);
    GrammarSeen(s, i);
    assert LogInv(s, i);
    hide Grammar, PcInv, BytesInv, TraceInv, Next, Init;
  }

  // Once done is closed, every non-nil sink has seen the whole trace: Started, chunks that carry exactly the
  // bytes written to each stream, and one terminal event that agrees with the result.
  lemma TraceComplete(s: State, i: nat)
    requires Runs.Reachable(Init, Next, s) && HasAll(s) && i < |s.sinks| && s.sinks[i] && s.done
    ensures s.logs[i] == s.trace && Grammar(s.trace, true)
    ensures forall stream :: s.pcs[Copier(stream)].Finished? && BytesOf(s.logs[i], stream) == s.written[stream]
    ensures s.result.Some? && Matches(Last(s.logs[i]).kind, s.result.value)
  {
    Inductive();
    Runs.InvariantReachable(Init, Next, Inv, s);
    assert LogInv(s, i);
    assert PcInv(s, Collector) && PcInv(s, Starter);
    if Active(s).Some? && Active(s).value.Copier? {
      assert s.pcs[Copier(Active(s).value.stream)].Finished?;
    }
    forall stream
      ensures s.pcs[Copier(stream)].Finished? && BytesOf(s.trace, stream) == s.written[stream]
    {
      assert BytesInv(s, stream);
    }
    hide BytesOf, BytesInv;
  }

  // Nothing blocks delivery for ever but a sink: the emitter that is delivering can always deliver or end.
  lemma DeliveryProceeds(s: State)
    requires Runs.Reachable(Init, Next, s) && HasAll(s) && Active(s).Some?
    ensures (exists s' :: Delivers(s, s', Active(s).value)) || (exists s' :: Ends(s, s', Active(s).value))
  {
    Inductive();
    Runs.InvariantReachable(Init, Next, Inv, s);
    var e := Active(s).value;
    assert PcInv(s, e);
    var event, n := s.pcs[e].event, s.pcs[e].next;
    if n < |s.sinks| {
      var s' := s.(logs := if s.sinks[n] then s.logs[n := s.logs[n] + [event]] else s.logs,
                   pcs := s.pcs[e := Emitting(event, n + 1)]);
      assert Delivers(s, s', e);
    } else {
      var s' := s.(mu := if e == Starter then s.mu else None, trace := s.trace + [event],
                   pcs := s.pcs[e := if e.Copier? then Idle else Finished]);
      assert Ends(s, s', e);
    }
  }

  // Every Wait returns the one result, and it and the terminal event say what became of the child: its exit code, an
  // error iff cmd.Wait returned one or the context had ended at the first look, canceled iff it had at the second.
  lemma WaitsAgree(s: State, t: nat, u: nat)
    requires Runs.Reachable(Init, Next, s) && t in s.waits && u in s.waits
    ensures s.waits[t] == s.waits[u] && s.result == Some(s.waits[t])
    ensures s.child.Some? && |s.trace| > 0 && Last(s.trace).Terminal?
    ensures s.waits[t].exitCode == s.child.value.exitCode
    ensures s.waits[t].err <==> s.child.value.waitErr || s.child.value.endedFirst
    ensures s.waits[t].canceled <==> s.child.value.endedThen
    ensures Reports(s.waits[t], Last(s.trace).kind, s.child.value)
  {
    Inductive();
    Runs.InvariantReachable(Init, Next, Inv, s);
    assert PcInv(s, Collector);
  }
}

// One emission, as the goroutine that may emit sees it.
module ProcessSinks {
  import opened ProcessEvents

  class Sinks {
    const present: seq<bool>
    var logs: seq<seq<Event>>

    ghost predicate Valid()
      reads this
    {
      |logs| == |present|
    }

    constructor (present: seq<bool>)
      ensures Valid() && this.present == present && forall i :: 0 <= i < |logs| ==> logs[i] == []
    {
      this.present := present;
      this.logs := seq(|present|, _ => []);
    }

    // Every non-nil sink gets the event once; the nil ones are skipped.
    method Emit(event: Event)
      requires Valid()
      modifies this
      ensures Valid()
      ensures forall i :: 0 <= i < |logs| ==> logs[i] == old(logs)[i] + if present[i] then [event] else []
    {
      for n := 0 to |present|
        invariant Valid()
        invariant forall i :: 0 <= i < |logs| ==> logs[i] == old(logs)[i] + if i < n && present[i] then [event] else []
      {
        if present[n] {
          logs := logs[n := logs[n] + [event]];
        }
      }
    }
  }
}
