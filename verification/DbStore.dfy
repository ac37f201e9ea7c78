// postgres/postgres.go and sqlite/sqlite.go: the two stores share one start/stop protocol and differ in the
// configurations they refuse. Stops may overlap each other and give up waiting; a Start overlaps no other call.
module DbStore {
  import opened Basics
  import Runs

  type Tid = nat
  type DbId = nat
  type CloseId = nat
  type Err = nat

  // The store's fields: the published database, and the close in progress or not yet reported.
  datatype Fields = Fields(db: Option<DbId>, closing: Option<CloseId>)

  // A closeState: which database it closes, and the result of Close once `done` is closed (nil is None).
  datatype CloseState = CloseState(db: DbId, result: Option<Option<Err>>)

  datatype Config = Config(dsn: string, maxOpenConns: int, maxIdleTime: int)

  datatype Driver = Postgres | Sqlite

  // The defaults New fills in.
  function Defaults(driver: Driver, cfg: Config): Config {
    if driver.Postgres? then cfg
    else Config(if cfg.dsn == "" then ":memory:" else cfg.dsn,
                if cfg.maxOpenConns == 0 then 1 else cfg.maxOpenConns, cfg.maxIdleTime)
  }

  // The configurations Start refuses before it touches the fields.
  predicate Refused(driver: Driver, cfg: Config) {
    if driver.Postgres? then cfg.dsn == ""
    else cfg.dsn == ":memory:" && (cfg.maxOpenConns != 1 || cfg.maxIdleTime > 0)
  }

  // A new postgres store refuses to start exactly without a DSN; a new sqlite store exactly when it is in memory, as it
  // is by default, and would use more than its one default connection, or drop it when idle.
  lemma RefusesExactly(driver: Driver, cfg: Config)
    ensures Refused(driver, Defaults(driver, cfg)) <==>
            match driver
            case Postgres => cfg.dsn == ""
            case Sqlite => cfg.dsn in {"", ":memory:"} && (cfg.maxOpenConns !in {0, 1} || cfg.maxIdleTime > 0)
    ensures Defaults(driver, Defaults(driver, cfg)) == Defaults(driver, cfg)
  {
    assert Defaults(Sqlite, cfg).dsn == ":memory:" <==> cfg.dsn in {"", ":memory:"};
  }

  datatype StartTest = BadConfig | AlreadyStarted | InProgress | PreviousFailed(err: Err) | Proceed

  // The locked test at the head of Start; `slot` is the result in the closing slot, if any.
  function TestStart(f: Fields, slot: Option<Option<Err>>): StartTest {
    if f.db.Some? then AlreadyStarted
    else if f.closing.None? then Proceed
    else match slot
      case None => InProgress
      case Some(None) => Proceed
      case Some(Some(e)) => PreviousFailed(e)
  }

  function AfterTest(f: Fields, slot: Option<Option<Err>>): Fields {
    if f.db.None? && f.closing.Some? && slot.Some? then f.(closing := None) else f
  }

  predicate StopCloses(f: Fields) {
    f.closing.None? && f.db.Some?
  }

  // The locked head of Stop: a published database moves to the closing slot.
  function AfterStop(f: Fields, c: CloseId): Fields {
    if StopCloses(f) then Fields(None, Some(c)) else f
  }

  // A Stop that saw `c` done clears the slot if it still holds `c`.
  function AfterDone(f: Fields, c: CloseId): Fields {
    if f.closing == Some(c) then f.(closing := None) else f
  }

  // What the answer of a Start tells its caller about the close in the slot: its error, or, by going on, that it had
  // none.
  function Tells(f: Fields, test: StartTest): Option<Option<Err>> {
    match test
    case PreviousFailed(e) => Some(Some(e))
    case Proceed => if f.closing.Some? then Some(None) else None
    case _ => None
  }

  datatype Phase =
    | Starting               // opened by a Start that is still pinging and migrating it
    | Current                // published
    | Tracked(c: CloseId)    // in the closing slot, its Close not begun
    | Closing(c: CloseId)    // in the closing slot, its Close running
    | Abandoned              // its Close running, in the Start that failed
    | Closed(err: Option<Err>)

  // A database: `begun` counts the Close calls on it, `told` is the result of Close that some Start or Stop returned.
  datatype Db = Db(phase: Phase, begun: nat, told: Option<Option<Err>>)

  datatype StartPc = NoStart | Opening | Trying(db: DbId) | Abandoning(db: DbId) | Reporting(db: DbId, err: Option<Err>)

  // Where a Stop is: waiting, or returned because there was nothing to stop, because its context ended, or with the
  // result of the close it waited for.
  datatype StopPc = Waiting(c: CloseId) | NothingToStop | ContextEnded | ReturnedClose(c: CloseId, err: Option<Err>)

  datatype State = State(
    f: Fields, states: map<CloseId, CloseState>, dbs: map<DbId, Db>, start: StartPc, stops: map<Tid, StopPc>)

  ghost predicate Init(s: State) {
    s == State(Fields(None, None), map[], map[], NoStart, map[])
  }

  // The close c has ended.
  ghost predicate Done(s: State, c: CloseId) {
    c in s.states && s.states[c].result.Some? && s.states[c].db in s.dbs
  }

  ghost function Slot(s: State): Option<Option<Err>> {
    if s.f.closing.Some? && Done(s, s.f.closing.value) then s.states[s.f.closing.value].result else None
  }

  // The documented rule: Start overlaps neither Start nor Stop.
  ghost predicate Quiet(s: State) {
    s.start.NoStart? && forall t :: t in s.stops ==> !s.stops[t].Waiting?
  }

  ghost function SetPhase(s: State, d: DbId, phase: Phase): State
    requires d in s.dbs
  {
    s.(dbs := s.dbs[d := s.dbs[d].(phase := phase)])
  }

  // Begins the Close of a database.
  ghost function BeginClose(s: State, d: DbId, phase: Phase): State
    requires d in s.dbs
  {
    s.(dbs := s.dbs[d := s.dbs[d].(phase := phase, begun := s.dbs[d].begun + 1)])
  }

  // Some call returns the result of a Close.
  ghost function Tell(s: State, d: DbId, err: Option<Err>): State
    requires d in s.dbs
  {
    s.(dbs := s.dbs[d := s.dbs[d].(told := Some(err))])
  }

  // A Start that answers `test` tells its caller about the close in the slot.
  ghost function Answer(s: State, test: StartTest): State {
    var told := Tells(s.f, test);
    if told.Some? && s.f.closing.Some? && Done(s, s.f.closing.value)
    then Tell(s, s.states[s.f.closing.value].db, told.value)
    else s
  }

  ghost predicate StartBegins(s: State, s': State) {
    && Quiet(s)
    && var test := TestStart(s.f, Slot(s));
       s' == Answer(s, test).(f := AfterTest(s.f, Slot(s)), start := if test.Proceed? then Opening else NoStart)
  }

  ghost predicate OpenReturns(s: State, s': State, d: DbId) {
    && s.start.Opening?
    && (|| s' == s.(start := NoStart)
        || (d !in s.dbs && s' == s.(start := Trying(d), dbs := s.dbs[d := Db(Starting, 0, None)])))
  }

  // Ping, migrations and Migrate have been tried: publish, or close what was opened.
  ghost predicate TryReturns(s: State, s': State) {
    && s.start.Trying? && s.start.db in s.dbs
    && var d := s.start.db;
       (|| s' == SetPhase(s, d, Current).(start := NoStart, f := s.f.(db := Some(d)))
        || s' == BeginClose(s, d, Abandoned).(start := Abandoning(d)))
  }

  ghost predicate AbandonReturns(s: State, s': State, err: Option<Err>) {
    && s.start.Abandoning? && s.start.db in s.dbs
    && s' == SetPhase(s, s.start.db, Closed(err)).(start := Reporting(s.start.db, err))
  }

  // The failed Start returns its own error joined with that of the Close.
  ghost predicate StartReports(s: State, s': State) {
    && s.start.Reporting? && s.start.db in s.dbs
    && s' == Tell(s, s.start.db, s.start.err).(start := NoStart)
  }

  ghost predicate StopBegins(s: State, s': State, t: Tid, c: CloseId) {
    && s.start.NoStart? && t !in s.stops && c !in s.states
    && s' == if StopCloses(s.f) && s.f.db.value in s.dbs then
               SetPhase(s, s.f.db.value, Tracked(c)).(
                 f := AfterStop(s.f, c), states := s.states[c := CloseState(s.f.db.value, None)],
                 stops := s.stops[t := Waiting(c)])
             else if s.f.closing.Some? then s.(stops := s.stops[t := Waiting(s.f.closing.value)])
             else s.(stops := s.stops[t := NothingToStop])
  }

  // The close goroutine.
  ghost predicate CloseBegins(s: State, s': State, c: CloseId) {
    && c in s.states
    && var d := s.states[c].db;
       d in s.dbs && s.dbs[d].phase == Tracked(c) && s' == BeginClose(s, d, Closing(c))
  }

  ghost predicate CloseReturns(s: State, s': State, c: CloseId, err: Option<Err>) {
    && c in s.states
    && var d := s.states[c].db;
       && d in s.dbs && s.dbs[d].phase == Closing(c)
       && s' == SetPhase(s, d, Closed(err)).(states := s.states[c := CloseState(d, Some(err))])
  }

  // A waiting Stop takes the done branch and returns the close error, or its context ends first.
  ghost predicate StopReturns(s: State, s': State, t: Tid) {
    && t in s.stops && s.stops[t].Waiting?
    && var c := s.stops[t].c;
       || s' == s.(stops := s.stops[t := ContextEnded])
       || (&& Done(s, c)
           && var err := s.states[c].result.value;
              s' == Tell(s, s.states[c].db, err).(f := AfterDone(s.f, c),
                                                  stops := s.stops[t := ReturnedClose(c, err)]))
  }

  ghost predicate StartStep(s: State, s': State) {
    || StartBegins(s, s') || (exists d :: OpenReturns(s, s', d)) || TryReturns(s, s')
    || (exists err :: AbandonReturns(s, s', err)) || StartReports(s, s')
  }

  ghost predicate StopStep(s: State, s': State) {
    (exists t, c :: StopBegins(s, s', t, c)) || (exists t :: StopReturns(s, s', t))
  }

  ghost predicate CloseStep(s: State, s': State) {
    (exists c :: CloseBegins(s, s', c)) || (exists c, err :: CloseReturns(s, s', c, err))
  }

  ghost predicate Next(s: State, s': State) {
    StartStep(s, s') || StopStep(s, s') || CloseStep(s, s')
  }

  /* ---------- The invariant ---------- */

  // The closing slot holds the close of d, with this result so far.
  ghost predicate SlotHolds(s: State, d: DbId, result: Option<Option<Err>>) {
    s.f.closing.Some? && s.f.closing.value in s.states && s.states[s.f.closing.value] == CloseState(d, result)
  }

  ghost predicate DbInv(s: State, d: DbId)
    requires d in s.dbs
  {
    var db := s.dbs[d];
    && (db.phase.Starting? <==> s.start == Trying(d))
    && (db.phase.Abandoned? <==> s.start == Abandoning(d))
    && (db.phase.Current? <==> s.f.db == Some(d))
    && (db.phase.Tracked? || db.phase.Closing? ==> s.f.closing == Some(db.phase.c) && SlotHolds(s, d, None))
    && (db.phase.Closed? ==>
          || db.told == Some(db.phase.err) || s.start == Reporting(d, db.phase.err)
          || SlotHolds(s, d, Some(db.phase.err)))
    && (db.told.Some? ==> db.phase == Closed(db.told.value))
    && (s.start.Reporting? && s.start.db == d ==> db.phase == Closed(s.start.err))
    && db.begun == if db.phase.Closing? || db.phase.Abandoned? || db.phase.Closed? then 1 else 0
  }

  ghost predicate CloseInv(s: State, c: CloseId)
    requires c in s.states
  {
    var d, result := s.states[c].db, s.states[c].result;
    && d in s.dbs
    && (result.None? ==> s.f.closing == Some(c) && (s.dbs[d].phase == Tracked(c) || s.dbs[d].phase == Closing(c)))
    && (result.Some? ==> s.dbs[d].phase == Closed(result.value))
  }

  // Where the calls are, and what the fields refer to.
  ghost predicate CallInv(s: State) {
    && (s.start.Trying? || s.start.Abandoning? || s.start.Reporting? ==> s.start.db in s.dbs)
    && (s.f.db.Some? ==> s.f.db.value in s.dbs && s.f.closing.None?)
    && (s.f.closing.Some? ==> s.f.closing.value in s.states)
    && (!s.start.NoStart? ==> s.f == Fields(None, None))
    && (forall t :: t in s.stops && s.stops[t].Waiting? ==> s.stops[t].c in s.states && s.start.NoStart?)
    && (forall t :: t in s.stops && s.stops[t].ReturnedClose? ==>
                      s.stops[t].c in s.states && s.states[s.stops[t].c].result == Some(s.stops[t].err))
  }

  ghost predicate Inv(s: State) {
    && CallInv(s)
    && (forall d :: d in s.dbs ==> DbInv(s, d))
    && (forall c :: c in s.states ==> CloseInv(s, c))
  }

  // Returning the result of a close that has ended, and then emptying the slot.
  lemma TellKeeps(s: State, id: CloseId)
    requires Inv(s) && Done(s, id)
    ensures Inv(Tell(s, s.states[id].db, s.states[id].result.value))
  {
    var s' := Tell(s, s.states[id].db, s.states[id].result.value);
    assert CloseInv(s, id);
    forall d | d in s'.dbs
      ensures DbInv(s', d)
    {
      assert d in s.dbs ==> DbInv(s, d);
    }
    forall c | c in s'.states
      ensures CloseInv(s', c)
    {
      assert c in s.states ==> CloseInv(s, c) && DbInv(s, s.states[c].db);
    }
  }

  lemma ClearKeeps(s: State, id: CloseId)
    requires Inv(s) && Done(s, id) && s.f.closing == Some(id)
    requires s.dbs[s.states[id].db].told == s.states[id].result
    ensures Inv(s.(f := s.f.(closing := None)))
  {
    var s' := s.(f := s.f.(closing := None));
    forall d | d in s'.dbs
      ensures DbInv(s', d)
    {
      assert d in s.dbs ==> DbInv(s, d);
    }
    forall c | c in s'.states
      ensures CloseInv(s', c)
    {
      assert c in s.states ==> CloseInv(s, c) && DbInv(s, s.states[c].db);
    }
  }

  // Calls that come and go without touching a database.
  lemma CallsKeep(s: State, s': State)
    requires Inv(s) && s' == s.(start := s'.start, stops := s'.stops) && CallInv(s')
    requires s.start == s'.start || (s.start.NoStart? && s'.start.Opening?)
    ensures Inv(s')
  {
    forall d | d in s'.dbs
      ensures DbInv(s', d)
    {
      assert d in s.dbs ==> DbInv(s, d);
    }
    forall c | c in s'.states
      ensures CloseInv(s', c)
    {
      assert c in s.states ==> CloseInv(s, c) && DbInv(s, s.states[c].db);
    }
  }

  lemma StartBeginsKeeps(s: State, s': State)
    requires Inv(s) && StartBegins(s, s')
    ensures Inv(s')
  {
    hide DbInv, CloseInv;
    var mid := s;
    if s.f.db.None? && Slot(s).Some? {
      TellKeeps(s, s.f.closing.value);
      mid := Answer(s, TestStart(s.f, Slot(s)));
      ClearKeeps(mid, s.f.closing.value);
      mid := mid.(f := mid.f.(closing := None));
    }
    CallsKeep(mid, s');
  }

  lemma OpenKeeps(s: State, s': State, id: DbId)
    requires Inv(s) && OpenReturns(s, s', id)
    ensures Inv(s')
  {
    forall d | d in s'.dbs
      ensures DbInv(s', d)
    {
      assert d in s.dbs ==> DbInv(s, d);
    }
    forall c | c in s'.states
      ensures CloseInv(s', c)
    {
      assert c in s.states ==> CloseInv(s, c) && DbInv(s, s.states[c].db);
    }
  }

  lemma TryKeeps(s: State, s': State)
    requires Inv(s) && TryReturns(s, s')
    ensures Inv(s')
  {
    assert DbInv(s, s.start.db);
    forall d | d in s'.dbs
      ensures DbInv(s', d)
    {
      assert d in s.dbs ==> DbInv(s, d);
    }
    forall c | c in s'.states
      ensures CloseInv(s', c)
    {
      assert c in s.states ==> CloseInv(s, c) && DbInv(s, s.states[c].db);
    }
  }

  lemma AbandonKeeps(s: State, s': State, err: Option<Err>)
    requires Inv(s) && AbandonReturns(s, s', err)
    ensures Inv(s')
  {
    assert DbInv(s, s.start.db);
    forall d | d in s'.dbs
      ensures DbInv(s', d)
    {
      assert d in s.dbs ==> DbInv(s, d);
    }
    forall c | c in s'.states
      ensures CloseInv(s', c)
    {
      assert c in s.states ==> CloseInv(s, c) && DbInv(s, s.states[c].db);
    }
  }

  lemma ReportKeeps(s: State, s': State)
    requires Inv(s) && StartReports(s, s')
    ensures Inv(s')
  {
    assert DbInv(s, s.start.db);
    forall d | d in s'.dbs
      ensures DbInv(s', d)
    {
      assert d in s.dbs ==> DbInv(s, d);
    }
    forall c | c in s'.states
      ensures CloseInv(s', c)
    {
      assert c in s.states ==> CloseInv(s, c) && DbInv(s, s.states[c].db);
    }
  }

  lemma StopBeginsDbs(s: State, s': State, t: Tid, id: CloseId)
    requires Inv(s) && StopBegins(s, s', t, id)
    ensures forall d :: d in s'.dbs ==> DbInv(s', d)
  {
    assert s.f.db.Some? ==> DbInv(s, s.f.db.value);
    hide CloseInv;
    forall d | d in s'.dbs
      ensures DbInv(s', d)
    {
      assert d in s.dbs ==> DbInv(s, d);
    }
  }

  lemma StopBeginsCloses(s: State, s': State, t: Tid, id: CloseId)
    requires Inv(s) && StopBegins(s, s', t, id)
    ensures forall c :: c in s'.states ==> CloseInv(s', c)
  {
    assert s.f.db.Some? ==> DbInv(s, s.f.db.value);
    hide DbInv;
    forall c | c in s'.states
      ensures CloseInv(s', c)
    {
      assert c in s.states ==> CloseInv(s, c);
    }
  }

  lemma StopBeginsKeeps(s: State, s': State, t: Tid, id: CloseId)
    requires Inv(s) && StopBegins(s, s', t, id)
    ensures Inv(s')
  {
    StopBeginsDbs(s, s', t, id);
    StopBeginsCloses(s, s', t, id);
    hide DbInv, CloseInv;
  }

  lemma StopReturnsKeeps(s: State, s': State, t: Tid)
    requires Inv(s) && StopReturns(s, s', t)
    ensures Inv(s')
  {
    hide DbInv, CloseInv;
    var mid, c := s, s.stops[t].c;
    if s' != s.(stops := s.stops[t := ContextEnded]) {
      TellKeeps(s, c);
      mid := Tell(s, s.states[c].db, s.states[c].result.value);
      if s.f.closing == Some(c) {
        ClearKeeps(mid, c);
        mid := mid.(f := mid.f.(closing := None));
      }
    }
    CallsKeep(mid, s');
  }

  lemma CloseBeginsKeeps(s: State, s': State, id: CloseId)
    requires Inv(s) && CloseBegins(s, s', id)
    ensures Inv(s')
  {
    assert CloseInv(s, id) && DbInv(s, s.states[id].db);
    forall d | d in s'.dbs
      ensures DbInv(s', d)
    {
      assert d in s.dbs ==> DbInv(s, d);
    }
    forall c | c in s'.states
      ensures CloseInv(s', c)
    {
      assert c in s.states ==> CloseInv(s, c) && DbInv(s, s.states[c].db);
    }
  }

  lemma CloseReturnsKeeps(s: State, s': State, id: CloseId, err: Option<Err>)
    requires Inv(s) && CloseReturns(s, s', id, err)
    ensures Inv(s')
  {
    assert CloseInv(s, id) && DbInv(s, s.states[id].db);
    forall d | d in s'.dbs
      ensures DbInv(s', d)
    {
      assert d in s.dbs ==> DbInv(s, d);
    }
    forall c | c in s'.states
      ensures CloseInv(s', c)
    {
      assert c in s.states ==> CloseInv(s, c) && DbInv(s, s.states[c].db);
    }
  }

  lemma NextKeeps(s: State, s': State)
    requires Inv(s) && Next(s, s')
    ensures Inv(s')
  {
    hide Inv, StartBegins, OpenReturns, TryReturns, AbandonReturns, StartReports, StopBegins, StopReturns, CloseBegins,
         CloseReturns;
    if StartBegins(s, s') {
      StartBeginsKeeps(s, s');
    } else if d :| OpenReturns(s, s', d) {
      OpenKeeps(s, s', d);
    } else if TryReturns(s, s') {
      TryKeeps(s, s');
    } else if err :| AbandonReturns(s, s', err) {
      AbandonKeeps(s, s', err);
    } else if StartReports(s, s') {
      ReportKeeps(s, s');
    } else if t, c :| StopBegins(s, s', t, c) {
      StopBeginsKeeps(s, s', t, c);
    } else if t :| StopReturns(s, s', t) {
      StopReturnsKeeps(s, s', t);
    } else if c :| CloseBegins(s, s', c) {
      CloseBeginsKeeps(s, s', c);
    } else {
      var c, err :| CloseReturns(s, s', c, err);
      CloseReturnsKeeps(s, s', c, err);
    }
  }

  lemma Inductive()
    ensures forall s :: Init(s) ==> Inv(s)
    ensures forall s, s' :: Inv(s) && Next(s, s') ==> Inv(s')
  {
    forall s, s' | Inv(s) && Next(s, s')
      ensures Inv(s')
    {
      NextKeeps(s, s');
    }
  }

  /* ---------- Main results, over every interleaving ---------- */

  // No database is leaked: each one opened is being started, published, in the closing slot, being closed by the
  // Start that failed, or closed; and its Close is begun at most once, exactly when it should be.
  lemma NoDatabaseLeaked(s: State, d: DbId)
    requires Runs.Reachable(Init, Next, s) && d in s.dbs
    ensures
      || s.start == Trying(d) || s.f.db == Some(d) || s.start == Abandoning(d) || s.dbs[d].phase.Closed?
      || SlotHolds(s, d, None)
    ensures s.dbs[d].begun <= 1
    ensures s.dbs[d].phase.Closed? ==> s.dbs[d].begun == 1
  {
    Inductive();
    Runs.InvariantReachable(Init, Next, Inv, s);
    assert DbInv(s, d);
  }

  // DB never returns a database whose Close has begun, nor one that is in the closing slot.
  lemma PublishedIsOpen(s: State)
    requires Runs.Reachable(Init, Next, s) && s.f.db.Some?
    ensures s.f.db.value in s.dbs && s.dbs[s.f.db.value].phase.Current?
    ensures s.dbs[s.f.db.value].begun == 0 && s.f.closing.None?
  {
    Inductive();
    Runs.InvariantReachable(Init, Next, Inv, s);
    assert DbInv(s, s.f.db.value);
  }

  // No close error is lost: when the Close of a database has ended, its result has been returned by a Start or Stop,
  // is about to be returned by the Start that failed, or is still in the slot. And nobody is told another result.
  lemma NoCloseErrorLost(s: State, d: DbId)
    requires Runs.Reachable(Init, Next, s) && d in s.dbs
    ensures s.dbs[d].phase.Closed? ==>
              var err := s.dbs[d].phase.err;
              s.dbs[d].told == Some(err) || s.start == Reporting(d, err) || SlotHolds(s, d, Some(err))
    ensures s.dbs[d].told.Some? ==> s.dbs[d].phase == Closed(s.dbs[d].told.value)
  {
    Inductive();
    Runs.InvariantReachable(Init, Next, Inv, s);
    assert DbInv(s, d);
  }

  // The same, seen from a close that a Stop began: it is in the slot until it has ended, and until its result has
  // been returned.
  lemma SlotKeepsClose(s: State, c: CloseId)
    requires Runs.Reachable(Init, Next, s) && c in s.states
    ensures s.states[c].db in s.dbs
    ensures s.states[c].result.None? ==> s.f.closing == Some(c)
    ensures s.states[c].result.Some? ==>
            var d, err := s.states[c].db, s.states[c].result.value;
            && s.dbs[d].phase == Closed(err)
            && (s.dbs[d].told == Some(err) || s.start == Reporting(d, err) || SlotHolds(s, d, Some(err)))
  {
    Inductive();
    Runs.InvariantReachable(Init, Next, Inv, s);
    assert CloseInv(s, c) && DbInv(s, s.states[c].db);
  }

  // The slot is cleared only by a Start or Stop that returns the result of the close it held.
  lemma ClearedOnlyByReport(s: State, s': State)
    requires Runs.Reachable(Init, Next, s) && Next(s, s')
    requires s.f.closing.Some? && s'.f.closing != s.f.closing
    ensures var c := s.f.closing.value;
            && s'.f.closing.None? && Done(s, c) && s.states[c].db in s'.dbs
            && s'.dbs[s.states[c].db].told == s.states[c].result
            && (StartBegins(s, s') || exists t :: StopReturns(s, s', t) && s.stops[t] == Waiting(c))
  {
    Inductive();
    Runs.InvariantReachable(Init, Next, Inv, s);
    assert CloseInv(s, s.f.closing.value);
    hide DbInv, CloseInv;
    if !StartBegins(s, s') {
      SlotKept(s, s');
    }
  }

  // Every other step leaves a filled slot as it is.
  lemma SlotKept(s: State, s': State)
    requires CallInv(s) && Next(s, s') && !StartBegins(s, s')
    requires s.f.closing.Some? && s'.f.closing != s.f.closing
    ensures exists t :: StopReturns(s, s', t) && s.stops[t] == Waiting(s.f.closing.value)
  {
    hide StartBegins;
  }

  // A Stop that saw its close end returns the result of that close.
  lemma StopReturnsResult(s: State, t: Tid)
    requires Runs.Reachable(Init, Next, s) && t in s.stops && s.stops[t].ReturnedClose?
    ensures var c := s.stops[t].c;
            && c in s.states && s.states[c].result == Some(s.stops[t].err)
            && s.states[c].db in s.dbs && s.dbs[s.states[c].db].phase == Closed(s.stops[t].err)
  {
    Inductive();
    Runs.InvariantReachable(Init, Next, Inv, s);
    assert CloseInv(s, s.stops[t].c);
  }

  // Once a Stop has begun no database is published: one that was is in the closing slot, and the Stop waits for it.
  lemma StopUnpublishes(s: State, s': State, t: Tid, c: CloseId)
    requires Runs.Reachable(Init, Next, s) && StopBegins(s, s', t, c)
    ensures s'.f.db.None?
    ensures s.f.db.Some? ==> SlotHolds(s', s.f.db.value, None) && s'.stops[t] == Waiting(c)
    ensures s.f.closing.Some? ==> s'.f.closing == s.f.closing && s'.stops[t] == Waiting(s.f.closing.value)
    ensures s'.stops[t] == NothingToStop <==> s.f == Fields(None, None)
  {
    Inductive();
    Runs.InvariantReachable(Init, Next, Inv, s);
  }

  // A Start goes on to open a database exactly when none is published and no close is under way or unreported; a Start
  // that does not says why.
  lemma StartGoesOn(s: State, s': State)
    requires Runs.Reachable(Init, Next, s) && StartBegins(s, s')
    ensures s'.start == Opening <==>
            && s.f.db.None?
            && (s.f.closing.Some? ==> s.f.closing.value in s.states && s.states[s.f.closing.value].result == Some(None))
    ensures s'.start == Opening ==> s'.f == Fields(None, None)
  {
    Inductive();
    Runs.InvariantReachable(Init, Next, Inv, s);
    if s.f.closing.Some? {
      assert CloseInv(s, s.f.closing.value);
    }
  }

  // A waiting Stop is never stuck: the close it waits for has ended, or its goroutine can go on.
  lemma WaitedCloseProceeds(s: State, t: Tid)
    requires Runs.Reachable(Init, Next, s) && t in s.stops && s.stops[t].Waiting?
    ensures var c := s.stops[t].c;
            c in s.states &&
            (|| s.states[c].result.Some?
             || (exists s' :: CloseBegins(s, s', c))
             || (exists s', err :: CloseReturns(s, s', c, err)))
  {
    Inductive();
    Runs.InvariantReachable(Init, Next, Inv, s);
    var c := s.stops[t].c;
    assert CloseInv(s, c);
    var d := s.states[c].db;
    if s.states[c].result.None? {
      if s.dbs[d].phase.Tracked? {
        var s' := BeginClose(s, d, Closing(c));
        assert CloseBegins(s, s', c);
      } else {
        var s' := SetPhase(s, d, Closed(None)).(states := s.states[c := CloseState(d, Some(None))]);
        assert CloseReturns(s, s', c, None);
      }
    }
  }

  /* ---------- The critical sections, on the store's own fields ---------- */

  class Store {
    const driver: Driver
    const cfg: Config
    var db: Option<DbId>
    var closing: Option<CloseId>

    ghost function View(): Fields
      reads this
    {
      Fields(db, closing)
    }

    constructor (driver: Driver, cfg: Config)
      ensures View() == Fields(None, None)
      ensures this.driver == driver && this.cfg == Defaults(driver, cfg)
    {
      this.driver, this.cfg := driver, Defaults(driver, cfg);
      db, closing := None, None;
    }

    // The head of Start, `slot` being the result in the closing slot, if any.
    method TestForStart(slot: Option<Option<Err>>) returns (test: StartTest)
      modifies this
      ensures Refused(driver, cfg) ==> test == BadConfig && View() == old(View())
      ensures !Refused(driver, cfg) ==>
              test == TestStart(old(View()), slot) && View() == AfterTest(old(View()), slot)
      ensures db == old(db) && (test == BadConfig <==> Refused(driver, cfg))
      ensures !Refused(driver, cfg) ==>
              && (test == AlreadyStarted <==> old(db).Some?)
              && (test == InProgress <==> old(db).None? && old(closing).Some? && slot.None?)
              && (test.PreviousFailed? <==> old(db).None? && old(closing).Some? && slot.Some? && slot.value.Some?)
              && (test == Proceed <==> old(db).None? && (old(closing).None? || slot == Some(None)))
      ensures test.PreviousFailed? ==> slot == Some(Some(test.err))
      ensures closing == if test.Proceed? || test.PreviousFailed? then None else old(closing)
    {
      if Refused(driver, cfg) {
        return BadConfig;
      }
      if db.Some? {
        return AlreadyStarted;
      }
      if closing.Some? {
        if slot.None? {
          return InProgress;
        }
        var closeErr := slot.value;
        closing := None;
        if closeErr.Some? {
          return PreviousFailed(closeErr.value);
        }
      }
      test := Proceed;
    }

    // Returns the close to wait for, if any, and the database it is to close if it is new.
    method TakeForStop(id: CloseId) returns (wait: Option<CloseId>, toClose: Option<DbId>)
      modifies this
      ensures View() == AfterStop(old(View()), id) && wait == View().closing
      ensures toClose == if StopCloses(old(View())) then old(db) else None
      ensures old(closing).Some? ==> db == old(db) && wait == old(closing) && toClose == None
      ensures old(closing).None? ==>
              && db == None && toClose == old(db)
              && wait == if old(db).Some? then Some(id) else None
    {
      if closing.None? {
        if db.None? {
          return None, None;
        }
        toClose := db;
        db := None;
        closing := Some(id);
      } else {
        toClose := None;
      }
      wait := closing;
    }

    method ClearDone(c: CloseId)
      modifies this
      ensures View() == AfterDone(old(View()), c)
      ensures db == old(db) && closing == if old(closing) == Some(c) then None else old(closing)
    {
      if closing == Some(c) {
        closing := None;
      }
    }
  }
}
