// examples/advanced-jobs/main.go: the job manager, its run goroutines and its callers, interleaved.
module Jobs {
  import opened Basics
  import opened Counting
  import Runs

  datatype Status = JobRunning | JobCompleted | JobCanceled

  // A job's goroutine: waiting for its timer or its context, about to record how it ended, done with the
  // record but not yet off the wait group, gone.
  datatype Pc = Waiting | Recording(status: Status) | Recorded | Exited

  // What a job's goroutine woke for.
  datatype Cause = TimerFired | ContextEnded

  // The manager's fields.
  datatype Fields = Fields(nextID: int, jobs: map<int, Status>, cancels: set<int>)

  // `wg` is the wait group's counter; `ended` the jobs whose context has ended; `woke` what each goroutine woke for.
  datatype State = State(f: Fields, wg: int, runs: map<int, Pc>, ended: set<int>, woke: map<int, Cause>)

  predicate IsUnfinished(pc: Pc) { !pc.Exited? }

  ghost function Unfinished(s: State): set<int> { Where(s.runs, IsUnfinished) }

  // The locked part of StartJob.
  function Added(f: Fields): Fields {
    var id := f.nextID + 1;
    Fields(id, f.jobs[id := JobRunning], f.cancels + {id})
  }

  // The locked part of run.
  function Ended(f: Fields, id: int, status: Status): Fields {
    f.(jobs := if id in f.jobs then f.jobs[id := status] else f.jobs, cancels := f.cancels - {id})
  }

  ghost predicate Init(s: State) {
    s == State(Fields(0, map[], {}), 0, map[], {}, map[])
  }

  ghost predicate Starts(s: State, s': State) {
    s' == s.(f := Added(s.f), wg := s.wg + 1, runs := s.runs[s.f.nextID + 1 := Waiting])
  }

  // Some jobs' contexts end: CancelJob calls the one it has looked up, Stop every one it finds, a parent its own.
  ghost predicate Cancels(s: State, s': State, ids: set<int>) {
    ids <= s.f.jobs.Keys && s' == s.(ended := s.ended + ids)
  }

  // The timer fires, or the job's context has ended.
  ghost predicate Wakes(s: State, s': State, id: int, timer: bool) {
    && id in s.runs && s.runs[id].Waiting? && (!timer ==> id in s.ended)
    && s' == s.(runs := s.runs[id := Recording(if timer then JobCompleted else JobCanceled)],
                woke := s.woke[id := if timer then TimerFired else ContextEnded])
  }

  ghost predicate Records(s: State, s': State, id: int) {
    && id in s.runs && s.runs[id].Recording?
    && s' == s.(f := Ended(s.f, id, s.runs[id].status), runs := s.runs[id := Recorded])
  }

  // The deferred wg.Done.
  ghost predicate Exits(s: State, s': State, id: int) {
    id in s.runs && s.runs[id].Recorded? && s' == s.(wg := s.wg - 1, runs := s.runs[id := Exited])
  }

  ghost predicate JobStep(s: State, s': State, id: int) {
    (exists timer :: Wakes(s, s', id, timer)) || Records(s, s', id) || Exits(s, s', id)
  }

  ghost predicate Next(s: State, s': State) {
    Starts(s, s') || (exists ids :: Cancels(s, s', ids)) || exists id :: JobStep(s, s', id)
  }

  // The status a job should end with.
  ghost function Due(cause: Cause): Status {
    match cause
    case TimerFired => JobCompleted
    case ContextEnded => JobCanceled
  }

  ghost predicate JobInv(s: State, id: int)
    requires id in s.f.jobs && id in s.runs
  {
    && 1 <= id <= s.f.nextID
    && (s.f.jobs[id] == JobRunning <==> id in s.f.cancels)
    && (id in s.f.cancels <==> s.runs[id].Waiting? || s.runs[id].Recording?)
    && (s.runs[id].Recording? ==> s.runs[id].status != JobRunning)
    && (id in s.woke <==> !s.runs[id].Waiting?)
    && (id in s.woke && s.woke[id].ContextEnded? ==> id in s.ended)
    && (s.runs[id].Recording? ==> s.runs[id].status == Due(s.woke[id]))
    && (s.runs[id].Recorded? || s.runs[id].Exited? ==> s.f.jobs[id] == Due(s.woke[id]))
  }

  ghost predicate Inv(s: State) {
    && s.f.nextID >= 0
    && s.f.jobs.Keys == s.runs.Keys
    && (forall id :: id in s.f.jobs <==> 1 <= id <= s.f.nextID)
    && s.f.cancels <= s.f.jobs.Keys
    && s.wg == |Unfinished(s)| && s.woke.Keys <= s.runs.Keys
    && (forall id :: id in s.f.jobs ==> JobInv(s, id))
  }

  lemma CancelsKeeps(s: State, s': State)
    requires Inv(s) && exists ids :: Cancels(s, s', ids)
    ensures Inv(s')
  {
    hide Where;
    forall id | id in s'.f.jobs
      ensures JobInv(s', id)
    {
      assert JobInv(s, id);
    }
  }

  lemma StartsKeeps(s: State, s': State)
    requires Inv(s) && Starts(s, s')
    ensures Inv(s')
  {
    WhereMoved(s.runs, IsUnfinished, s.f.nextID + 1, Waiting);
    hide Where;
    forall id | id in s'.f.jobs
      ensures JobInv(s', id)
    {
      if id in s.f.jobs {
        assert JobInv(s, id);
      }
    }
  }

  lemma WakesKeeps(s: State, s': State, id: int, timer: bool)
    requires Inv(s) && Wakes(s, s', id, timer)
    ensures Inv(s')
  {
    WhereMoved(s.runs, IsUnfinished, id, s'.runs[id]);
    hide Where;
    assert JobInv(s, id);
    forall other | other in s'.f.jobs
      ensures JobInv(s', other)
    {
      assert JobInv(s, other);
    }
  }

  lemma RecordsKeeps(s: State, s': State, id: int)
    requires Inv(s) && Records(s, s', id)
    ensures Inv(s')
  {
    WhereMoved(s.runs, IsUnfinished, id, s'.runs[id]);
    hide Where;
    assert JobInv(s, id);
    forall other | other in s'.f.jobs
      ensures JobInv(s', other)
    {
      assert JobInv(s, other);
    }
  }

  lemma ExitsKeeps(s: State, s': State, id: int)
    requires Inv(s) && Exits(s, s', id)
    ensures Inv(s')
  {
    WhereMoved(s.runs, IsUnfinished, id, s'.runs[id]);
    hide Where;
    assert JobInv(s, id);
    forall other | other in s'.f.jobs
      ensures JobInv(s', other)
    {
      assert JobInv(s, other);
    }
  }

  lemma JobStepKeeps(s: State, s': State, id: int)
    requires Inv(s) && JobStep(s, s', id)
    ensures Inv(s')
  {
    hide Inv, Wakes, Records, Exits;
    if timer :| Wakes(s, s', id, timer) {
      WakesKeeps(s, s', id, timer);
    } else if Records(s, s', id) {
      RecordsKeeps(s, s', id);
    } else {
      ExitsKeeps(s, s', id);
    }
  }

  lemma NextKeeps(s: State, s': State)
    requires Inv(s) && Next(s, s')
    ensures Inv(s')
    ensures forall id :: id in s.f.jobs ==>
                         id in s'.f.jobs && (s.f.jobs[id] != JobRunning ==> s'.f.jobs[id] == s.f.jobs[id])
  {
    if id :| JobStep(s, s', id) {
      JobStepKeeps(s, s', id);
      assert JobInv(s, id);
    } else if Starts(s, s') {
      StartsKeeps(s, s');
    } else {
      CancelsKeeps(s, s');
    }
  }

  lemma Inductive()
    ensures forall s :: Init(s) ==> Inv(s)
    ensures forall s, s' :: Inv(s) && Next(s, s') ==> Inv(s')
  {
    forall s | Init(s)
      ensures Inv(s)
    {
      assert Unfinished(s) == {};
    }
    forall s, s' | Inv(s) && Next(s, s')
      ensures Inv(s')
    {
      NextKeeps(s, s');
    }
  }

  /* ---------- Main results, over every interleaving ---------- */

  // Ids are 1..nextID, and the cancel functions kept are exactly those of the running jobs.
  lemma Bookkeeping(s: State)
    requires Runs.Reachable(Init, Next, s)
    ensures forall id :: id in s.f.jobs <==> 1 <= id <= s.f.nextID
    ensures forall id :: id in s.f.cancels <==> id in s.f.jobs && s.f.jobs[id] == JobRunning
  {
    Inductive();
    Runs.InvariantReachable(Init, Next, Inv, s);
    forall id | id in s.f.jobs
      ensures id in s.f.cancels <==> s.f.jobs[id] == JobRunning
    {
      assert JobInv(s, id);
    }
  }

  // The wait group counts the goroutines that have not ended, at least as many as there are cancel functions; when
  // Stop sees it at zero, every job there is has ended.
  lemma WaitGroup(s: State)
    requires Runs.Reachable(Init, Next, s)
    ensures s.wg == |Unfinished(s)| >= |s.f.cancels|
    ensures s.wg == 0 ==> s.f.cancels == {} && forall id :: id in s.f.jobs ==> s.f.jobs[id] != JobRunning
  {
    Bookkeeping(s);
    Inductive();
    Runs.InvariantReachable(Init, Next, Inv, s);
    forall id | id in s.f.cancels
      ensures id in Unfinished(s)
    {
      assert JobInv(s, id);
    }
    SubsetSmaller(s.f.cancels, Unfinished(s));
  }

  // A job that is no longer running was completed because its timer fired, or canceled because its context ended.
  lemma EndedAsDue(s: State, id: int)
    requires Runs.Reachable(Init, Next, s) && id in s.f.jobs && s.f.jobs[id] != JobRunning
    ensures id in s.woke
    ensures s.f.jobs[id] == JobCompleted <==> s.woke[id] == TimerFired
    ensures s.f.jobs[id] == JobCanceled <==> s.woke[id] == ContextEnded
    ensures s.woke[id] == ContextEnded ==> id in s.ended
  {
    Inductive();
    Runs.InvariantReachable(Init, Next, Inv, s);
    assert JobInv(s, id);
  }

  // A job is recorded as canceled only if its context ended; and once the contexts of all running jobs have ended, as
  // Stop sees to, every goroutine still waiting can go on.
  lemma CanceledByContext(s: State, id: int)
    requires Runs.Reachable(Init, Next, s) && id in s.f.jobs
    ensures id in s.runs
    ensures s.f.jobs[id] == JobCanceled ==> id in s.ended
    ensures s.f.cancels <= s.ended && s.runs[id].Waiting? ==> exists s' :: Wakes(s, s', id, false)
  {
    Inductive();
    Runs.InvariantReachable(Init, Next, Inv, s);
    assert JobInv(s, id);
    if s.f.cancels <= s.ended && s.runs[id].Waiting? {
      var s' := s.(runs := s.runs[id := Recording(JobCanceled)], woke := s.woke[id := ContextEnded]);
      assert Wakes(s, s', id, false);
    }
  }

  // A job that has ended never changes again.
  lemma EndedForGood(run: seq<State>, i: nat, j: nat, id: int, status: Status)
    requires Runs.IsRun(Init, Next, run) && i <= j < |run| && status != JobRunning
    requires id in run[i].f.jobs && run[i].f.jobs[id] == status
    ensures id in run[j].f.jobs && run[j].f.jobs[id] == status
  {
    Inductive();
    var ended := (u: State) => id in u.f.jobs && u.f.jobs[id] == status;
    assert forall u, v :: Inv(u) && ended(u) && Next(u, v) ==> ended(v) by {
      forall u, v | Inv(u) && ended(u) && Next(u, v)
        ensures ended(v)
      {
        NextKeeps(u, v);
      }
    }
    hide Inv, Next;
    Runs.StableOverRun(Init, Next, Inv, ended, run, i, j);
  }

  /* ---------- The manager's methods, on its own fields ---------- */

  datatype Job = Job(id: int, status: Status)

  ghost predicate SortedById(list: seq<Job>) {
    forall i, j :: 0 <= i < j < |list| ==> list[i].id < list[j].id
  }

  // Listing the jobs: each id once, with its status, in increasing order.
  ghost predicate Lists(list: seq<Job>, jobs: map<int, Status>) {
    && SortedById(list)
    && (forall i :: 0 <= i < |list| ==> list[i].id in jobs && jobs[list[i].id] == list[i].status)
    && (forall id :: id in jobs ==> Job(id, jobs[id]) in list)
  }

  // Two such lists end in the same job.
  lemma SameLast(a: seq<Job>, b: seq<Job>, jobs: map<int, Status>)
    requires Lists(a, jobs) && Lists(b, jobs) && |a| > 0
    ensures |b| > 0 && Last(a) == Last(b)
  {
    assert Job(a[0].id, jobs[a[0].id]) in b;
    assert Last(a) in b && Last(b) in a;
  }

  // There is only one such list, whatever order the map is ranged over in.
  lemma {:induction false} ListUnique(a: seq<Job>, b: seq<Job>, jobs: map<int, Status>)
    requires Lists(a, jobs) && Lists(b, jobs)
    ensures a == b
    decreases |a|
  {
    if |a| == 0 {
      if |b| > 0 {
        SameLast(b, a, jobs);
      }
    } else {
      hide Lists;
      SameLast(a, b, jobs);
      DropListed(a, jobs);
      DropListed(b, jobs);
      ListUnique(DropLast(a), DropLast(b), jobs - {Last(a).id});
      assert DropLast(a) + [Last(a)] == a && DropLast(b) + [Last(b)] == b;
    }
  }

  lemma DropListed(list: seq<Job>, jobs: map<int, Status>)
    requires |list| > 0 && Lists(list, jobs)
    ensures Lists(DropLast(list), jobs - {Last(list).id})
  {
    var rest := jobs - {Last(list).id};
    forall id | id in rest
      ensures Job(id, rest[id]) in DropLast(list)
    {
      var i :| 0 <= i < |list| && list[i] == Job(id, jobs[id]);
      assert DropLast(list)[i] == list[i];
    }
  }

  // `ended` records which jobs' contexts the cancel functions have ended.
  class JobManager {
    var nextID: int
    var jobs: map<int, Status>
    var cancels: set<int>
    var ended: set<int>

    ghost function View(): Fields
      reads this
    {
      Fields(nextID, jobs, cancels)
    }

    // Ids are 1..nextID, and there is a cancel function for exactly the running jobs.
    ghost predicate Valid()
      reads this
    {
      && nextID >= 0
      && (forall id :: id in jobs <==> 1 <= id <= nextID)
      && (forall id :: id in cancels <==> id in jobs && jobs[id] == JobRunning)
    }

    constructor ()
      ensures Valid() && View() == Fields(0, map[], {}) && ended == {}
    {
      nextID, jobs, cancels, ended := 0, map[], {}, {};
    }

    method StartJob() returns (id: int)
      requires Valid()
      modifies this
      ensures Valid() && View() == Added(old(View())) && ended == old(ended)
      ensures id == nextID == old(nextID) + 1 && id !in old(jobs)
      ensures jobs == old(jobs)[id := JobRunning] && cancels == old(cancels) + {id}
    {
      nextID := nextID + 1;
      id := nextID;
      jobs := jobs[id := JobRunning];
      cancels := cancels + {id};
    }

    // Ends the context of a running job; there is nothing to cancel in any other. Another goroutine may run between
    // the look-up and the cancellation, which the steps above allow: they end any context at any time.
    method CancelJob(id: int) returns (ok: bool)
      requires Valid()
      modifies this`ended
      ensures Valid() && (ok <==> id in jobs && jobs[id] == JobRunning)
      ensures ended == if ok then old(ended) + {id} else old(ended)
    {
      ok := id in cancels;
      if !ok {
        return false;
      }
      ended := ended + {id};
    }

    // The first half of Stop: the contexts of all running jobs end.
    method CancelAll()
      requires Valid()
      modifies this`ended
      ensures Valid()
      ensures forall id :: id in ended <==> id in old(ended) || (id in jobs && jobs[id] == JobRunning)
    {
      var left := cancels;
      while left != {}
        invariant left <= cancels && ended == old(ended) + (cancels - left)
        decreases left
      {
        var id := Pick(left);
        ended := ended + {id};
        left := left - {id};
      }
    }

    // The end of run, which never records that the job is running.
    method EndRun(id: int, status: Status)
      requires Valid() && status != JobRunning
      modifies this
      ensures Valid() && View() == Ended(old(View()), id, status) && ended == old(ended)
      ensures jobs == if id in old(jobs) then old(jobs)[id := status] else old(jobs)
      ensures nextID == old(nextID) && cancels == old(cancels) - {id}
    {
      if id in jobs {
        jobs := jobs[id := status];
      }
      cancels := cancels - {id};
    }

    // Ranges over the map in any order, keeping the list sorted by id.
    method List() returns (list: seq<Job>)
      ensures Lists(list, jobs)
    {
      list := [];
      var left := jobs.Keys;
      ghost var listed: map<int, Status> := map[];
      while left != {}
        invariant left <= jobs.Keys
        invariant listed == map id | id in jobs && id !in left :: jobs[id]
        invariant Lists(list, listed)
        decreases left
      {
        var id := Pick(left);
        list := Insert(list, Job(id, jobs[id]), listed);
        listed := listed[id := jobs[id]];
        left := left - {id};
      }
      assert listed == jobs;
    }
  }

  // `longer` is `list` with `job` put in at i.
  ghost predicate PutIn(list: seq<Job>, i: nat, job: Job, longer: seq<Job>) {
    && i <= |list| && |longer| == |list| + 1
    && forall k {:trigger longer[k]} :: 0 <= k < |longer| ==>
         longer[k] == if k < i then list[k] else if k == i then job else list[k - 1]
  }

  lemma PutInConcat(list: seq<Job>, i: nat, job: Job)
    requires i <= |list|
    ensures PutIn(list, i, job, list[..i] + [job] + list[i..])
  {
  }

  lemma PutInSorted(list: seq<Job>, i: nat, job: Job, longer: seq<Job>)
    requires SortedById(list) && PutIn(list, i, job, longer)
    requires forall k :: 0 <= k < i ==> list[k].id < job.id
    requires forall k :: i <= k < |list| ==> list[k].id > job.id
    ensures SortedById(longer)
  {
    forall x, y | 0 <= x < y < |longer|
      ensures longer[x].id < longer[y].id
    {
      var a, b := if x < i then x else x - 1, if y < i then y else y - 1;
      if x != i && y != i {
        assert list[a].id < list[b].id;
      }
    }
  }

  // Where a job goes in a sorted list.
  lemma Inserted(list: seq<Job>, i: nat, job: Job, longer: seq<Job>, jobs: map<int, Status>)
    requires Lists(list, jobs) && job.id !in jobs && PutIn(list, i, job, longer)
    requires SortedById(longer)
    ensures Lists(longer, jobs[job.id := job.status])
  {
    hide SortedById;
    var more := jobs[job.id := job.status];
    assert longer[i] == Job(job.id, more[job.id]);
    forall id | id in more && id != job.id
      ensures Job(id, more[id]) in longer
    {
      var k :| 0 <= k < |list| && list[k] == Job(id, jobs[id]);
      assert longer[if k < i then k else k + 1] == list[k];
    }
  }

  method Insert(list: seq<Job>, job: Job, ghost jobs: map<int, Status>) returns (longer: seq<Job>)
    requires Lists(list, jobs) && job.id !in jobs
    ensures Lists(longer, jobs[job.id := job.status])
  {
    var i := |list|;
    while i > 0 && list[i - 1].id > job.id
      invariant 0 <= i <= |list|
      invariant forall k :: i <= k < |list| ==> list[k].id > job.id
    {
      i := i - 1;
    }
    assert i > 0 ==> list[i - 1].id in jobs;
    assert forall k :: 0 <= k < i ==> list[k].id < job.id;
    longer := list[..i] + [job] + list[i..];
    PutInConcat(list, i, job);
    PutInSorted(list, i, job, longer);
    hide PutIn, Lists, SortedById;
    Inserted(list, i, job, longer, jobs);
  }
}
