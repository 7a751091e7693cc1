/** The carrier agent's job queue (apps/carrier_agent/jobs/runner.py): any number of
    workers take jobs with SELECT ... FOR UPDATE SKIP LOCKED, commit the claim, process,
    and commit the result, with crashes and failed commits in between. */
module CarrierJobs {
  import opened Wrappers

  type JobId = nat
  type WorkerId = nat

  datatype Status = Pending | Running | Succeeded | Failed {
    predicate Terminal() {
      this == Succeeded || this == Failed
    }
  }

  datatype Job = Job(status: Status, attempts: nat, created: nat)

  // `Selected`: the row lock is held and nothing is committed yet. `Processing`: the claim
  // is committed.
  datatype Worker = Idle | Selected(job: JobId) | Processing(job: JobId)

  // `results` is the table of result rows, keyed by job; `processed` is the history of
  // committed claims, not a table.
  datatype State = State(
    jobs: map<JobId, Job>, results: seq<JobId>, workers: map<WorkerId, Worker>,
    processed: seq<(WorkerId, JobId)>)

  datatype Step =
    | Submit(job: JobId, created: nat)
    | Select(worker: WorkerId, job: JobId)
    | CommitClaim(worker: WorkerId)
    | CommitResult(worker: WorkerId, ok: bool)
    | Abandon(worker: WorkerId)  // a crash, or a failed commit: the transaction and its locks are gone

  predicate Locked(s: State, j: JobId) {
    exists w :: w in s.workers && s.workers[w] == Selected(j)
  }

  // The oldest pending job whose row is not locked.
  predicate Selectable(s: State, j: JobId) {
    && j in s.jobs && s.jobs[j].status == Pending && !Locked(s, j)
    && forall k :: k in s.jobs && s.jobs[k].status == Pending && !Locked(s, k) ==>
         s.jobs[j].created <= s.jobs[k].created
  }

  predicate Enabled(s: State, step: Step) {
    match step
    case Submit(j, c) => j !in s.jobs
    case Select(w, j) => w in s.workers && s.workers[w] == Idle && Selectable(s, j)
    case CommitClaim(w) => w in s.workers && s.workers[w].Selected? && s.workers[w].job in s.jobs
    case CommitResult(w, ok) =>
      // the result row's primary key is the job
      w in s.workers && s.workers[w].Processing? && s.workers[w].job in s.jobs && s.workers[w].job !in s.results
    case Abandon(w) => w in s.workers
  }

  function Next(s: State, step: Step): State
    requires Enabled(s, step)
  {
    match step
    case Submit(j, c) => s.(jobs := s.jobs[j := Job(Pending, 0, c)])
    case Select(w, j) => s.(workers := s.workers[w := Selected(j)])
    case CommitClaim(w) =>
      var j := s.workers[w].job;
      s.(jobs := s.jobs[j := s.jobs[j].(status := Running, attempts := s.jobs[j].attempts + 1)],
         workers := s.workers[w := Processing(j)], processed := s.processed + [(w, j)])
    case CommitResult(w, ok) =>
      var j := s.workers[w].job;
      s.(jobs := s.jobs[j := s.jobs[j].(status := if ok then Succeeded else Failed)],
         results := s.results + [j], workers := s.workers[w := Idle])
    case Abandon(w) => s.(workers := s.workers[w := Idle])
  }

  function Init(workers: set<WorkerId>): State {
    State(map[], [], map w | w in workers :: Idle, [])
  }

  predicate IsRun(s: State, steps: seq<Step>)
    decreases |steps|
  {
    steps != [] ==> Enabled(s, steps[0]) && IsRun(Next(s, steps[0]), steps[1..])
  }

  function After(s: State, steps: seq<Step>): State
    requires IsRun(s, steps)
    decreases |steps|
  {
    if steps == [] then s else After(Next(s, steps[0]), steps[1..])
  }

  /******* The runner *******/

  // The code that makes the steps, over the tables and the row locks.
  class Queue {
    var jobs: map<JobId, Job>
    var results: seq<JobId>
    var workers: map<WorkerId, Worker>
    ghost var processed: seq<(WorkerId, JobId)>

    constructor (workers: set<WorkerId>)
      ensures Snapshot() == Init(workers)
    {
      this.jobs, this.results, this.processed := map[], [], [];
      this.workers := map w | w in workers :: Idle;
    }

    ghost function Snapshot(): State
      reads this
    {
      State(jobs, results, workers, processed)
    }

    // The query: the oldest pending job whose row is not locked, if there is one.
    method SelectJob(w: WorkerId) returns (selected: Option<JobId>)
      requires w in workers && workers[w] == Idle
      modifies this`workers
      ensures selected == None ==> workers == old(workers)
      ensures selected == None ==> forall j :: j in jobs && jobs[j].status == Pending ==> Locked(old(Snapshot()), j)
      ensures selected.Some? ==>
        && var j := selected.value;
        && Enabled(old(Snapshot()), Select(w, j)) && Snapshot() == Next(old(Snapshot()), Select(w, j))
        && j in jobs && jobs[j].status == Pending && !Locked(old(Snapshot()), j)
        && forall k :: k in jobs && jobs[k].status == Pending && !Locked(old(Snapshot()), k) ==>
             jobs[j].created <= jobs[k].created
    {
      selected := None;
      var todo := jobs.Keys;
      while todo != {}
        invariant todo <= jobs.Keys && workers == old(workers)
        invariant selected.Some? ==>
          selected.value in jobs && jobs[selected.value].status == Pending && !Locked(Snapshot(), selected.value)
        invariant forall k :: k in jobs.Keys - todo && jobs[k].status == Pending && !Locked(Snapshot(), k) ==>
          selected.Some? && jobs[selected.value].created <= jobs[k].created
      {
        var k :| k in todo;
        todo := todo - {k};
        var locked := exists v :: v in workers && workers[v] == Selected(k);
        if jobs[k].status == Pending && !locked && (selected.None? || jobs[k].created < jobs[selected.value].created) {
          selected := Some(k);
        }
      }
      if selected.Some? {
        workers := workers[w := Selected(selected.value)];
      }
    }

    // The claim of a selected job; the commit releases its lock.
    method ClaimJob(w: WorkerId)
      requires Enabled(Snapshot(), CommitClaim(w))
      modifies this
      ensures Snapshot() == Next(old(Snapshot()), CommitClaim(w))
      ensures var j := old(workers[w].job);
        && jobs == old(jobs)[j := Job(Running, old(jobs)[j].attempts + 1, old(jobs)[j].created)]
        && results == old(results) && workers == old(workers)[w := Processing(j)]
      ensures Inv(old(Snapshot())) ==> Inv(Snapshot()) && !Locked(Snapshot(), old(workers[w].job))
    {
      ghost var before := Snapshot();
      var j := workers[w].job;
      jobs := jobs[j := jobs[j].(status := Running)];
      jobs := jobs[j := jobs[j].(attempts := jobs[j].attempts + 1)];
      workers, processed := workers[w := Processing(j)], processed + [(w, j)];
      if Inv(before) {
        StepKeeps(before, CommitClaim(w));
      }
    }

    // The outcome of a claimed job: it fails when its target is gone.
    method ProcessJob(w: WorkerId, targetExists: bool)
      requires Enabled(Snapshot(), CommitResult(w, targetExists))
      modifies this
      ensures Snapshot() == Next(old(Snapshot()), CommitResult(w, targetExists))
      ensures var j := old(workers[w].job);
        && jobs == old(jobs)[j := Job(if targetExists then Succeeded else Failed,
                                      old(jobs)[j].attempts, old(jobs)[j].created)]
        && results == old(results) + [j] && workers == old(workers)[w := Idle]
      ensures Inv(old(Snapshot())) ==>
        Inv(Snapshot()) && ResultRows(results, old(workers[w].job)) == 1 && jobs[old(workers[w].job)].status.Terminal()
    {
      ghost var before := Snapshot();
      var j := workers[w].job;
      results := results + [j];
      if targetExists {
        jobs := jobs[j := jobs[j].(status := Succeeded)];
      } else {
        jobs := jobs[j := jobs[j].(status := Failed)];
      }
      workers := workers[w := Idle];
      if Inv(before) {
        StepKeeps(before, CommitResult(w, targetExists));
        CountDistinct(results, j);
      }
    }
  }

  /******* The invariant *******/

  ghost predicate Inv(s: State) {
    // a worker's job is in the state its phase says, and nobody else's
    && (forall w :: w in s.workers && !s.workers[w].Idle? ==>
          && s.workers[w].job in s.jobs
          && s.jobs[s.workers[w].job].status == (if s.workers[w].Selected? then Pending else Running))
    && (forall v, w :: v in s.workers && w in s.workers && v != w && !s.workers[v].Idle? && !s.workers[w].Idle? ==>
          s.workers[v].job != s.workers[w].job)
    // one attempt per claim
    && (forall j :: j in s.jobs ==> s.jobs[j].attempts == if s.jobs[j].status == Pending then 0 else 1)
    && (forall i :: 0 <= i < |s.processed| ==> s.processed[i].1 in s.jobs && s.jobs[s.processed[i].1].status != Pending)
    && (forall i, k :: 0 <= i < k < |s.processed| ==> s.processed[i].1 != s.processed[k].1)
    // one result row per terminal job
    && (forall j :: j in s.results <==> j in s.jobs && s.jobs[j].status.Terminal())
    && (forall i, k :: 0 <= i < k < |s.results| ==> s.results[i] != s.results[k])
  }

  ghost predicate Forward(a: Status, b: Status) {
    a == b || a == Pending || (a == Running && b.Terminal())
  }

  // What a step does to every job that exists.
  ghost predicate Monotone(s: State, t: State) {
    forall j :: j in s.jobs ==> j in t.jobs && Forward(s.jobs[j].status, t.jobs[j].status)
  }

  lemma {:induction false} SelectKeeps(s: State, w: WorkerId, j: JobId)
    requires Inv(s) && Enabled(s, Select(w, j))
    ensures Inv(Next(s, Select(w, j))) && Monotone(s, Next(s, Select(w, j)))
  {
    forall v | v in s.workers && v != w && !s.workers[v].Idle? ensures s.workers[v].job != j {
      assert !Locked(s, j);
      assert s.workers[v] != Selected(j);
    }
  }

  lemma {:induction false} ClaimKeeps(s: State, w: WorkerId)
    requires Inv(s) && Enabled(s, CommitClaim(w))
    ensures Inv(Next(s, CommitClaim(w))) && Monotone(s, Next(s, CommitClaim(w)))
  {
    assert s.workers[w].job !in s.results;
  }

  lemma {:induction false} ResultKeeps(s: State, w: WorkerId, ok: bool)
    requires Inv(s) && Enabled(s, CommitResult(w, ok))
    ensures Inv(Next(s, CommitResult(w, ok))) && Monotone(s, Next(s, CommitResult(w, ok)))
  {
  }

  lemma {:induction false} StepKeeps(s: State, step: Step)
    requires Inv(s) && Enabled(s, step)
    ensures Inv(Next(s, step)) && Monotone(s, Next(s, step))
  {
    match step
    case Select(w, j) => SelectKeeps(s, w, j);
    case CommitClaim(w) => ClaimKeeps(s, w);
    case CommitResult(w, ok) => ResultKeeps(s, w, ok);
    case Submit(_, _) =>
    case Abandon(_) =>
  }

  lemma {:induction false} RunKeeps(s: State, steps: seq<Step>)
    requires Inv(s) && IsRun(s, steps)
    ensures Inv(After(s, steps)) && Monotone(s, After(s, steps))
    decreases |steps|
  {
    if steps != [] {
      StepKeeps(s, steps[0]);
      RunKeeps(Next(s, steps[0]), steps[1..]);
    }
  }

  function ResultRows(results: seq<JobId>, j: JobId): nat {
    if results == [] then 0 else (if results[0] == j then 1 else 0) + ResultRows(results[1..], j)
  }

  lemma {:induction false} CountDistinct(results: seq<JobId>, j: JobId)
    requires forall i, k :: 0 <= i < k < |results| ==> results[i] != results[k]
    ensures ResultRows(results, j) == if j in results then 1 else 0
  {
    if results != [] {
      CountDistinct(results[1..], j);
    }
  }

  // Any number of workers, any interleaving: a job is claimed by at most one worker ever,
  // at most one works on it at a time, it is attempted at most once, and it has exactly one
  // result row if it is terminal and none otherwise.
  lemma {:induction false} ClaimedAtMostOnce(workers: set<WorkerId>, steps: seq<Step>, j: JobId)
    requires IsRun(Init(workers), steps)
    ensures var s := After(Init(workers), steps);
      && (forall i, k :: 0 <= i < k < |s.processed| ==> s.processed[i].1 != s.processed[k].1)
      && (forall v, w :: v in s.workers && w in s.workers && s.workers[v] == s.workers[w] == Processing(j) ==> v == w)
      && (j in s.jobs ==>
            && s.jobs[j].attempts <= 1
            && ResultRows(s.results, j) == (if s.jobs[j].status.Terminal() then 1 else 0))
  {
    RunKeeps(Init(workers), steps);
    CountDistinct(After(Init(workers), steps).results, j);
  }

  lemma {:induction false} RunAppend(s: State, a: seq<Step>, b: seq<Step>)
    requires IsRun(s, a + b)
    ensures IsRun(s, a) && IsRun(After(s, a), b) && After(s, a + b) == After(After(s, a), b)
    decreases |a|
  {
    if a == [] {
      assert a + b == b;
    } else {
      assert (a + b)[1..] == a[1..] + b;
      RunAppend(Next(s, a[0]), a[1..], b);
    }
  }

  // Over time a job's status only moves from pending to running to one terminal status.
  lemma {:induction false} StatusOnlyMovesForward(workers: set<WorkerId>, before: seq<Step>, later: seq<Step>, j: JobId)
    requires IsRun(Init(workers), before + later)
    ensures IsRun(Init(workers), before)
    ensures var s, t := After(Init(workers), before), After(Init(workers), before + later);
      j in s.jobs ==> j in t.jobs && Forward(s.jobs[j].status, t.jobs[j].status)
  {
    RunAppend(Init(workers), before, later);
    RunKeeps(Init(workers), before);
    RunKeeps(After(Init(workers), before), later);
  }

  // Nothing else is in the way either: a job that is submitted to an idle queue can be run to
  // its end, with the outcome it deserves.
  lemma {:induction false} JobRunsThrough(workers: set<WorkerId>, w: WorkerId, j: JobId, created: nat, ok: bool)
    requires w in workers
    ensures var steps := [Submit(j, created), Select(w, j), CommitClaim(w), CommitResult(w, ok)];
      && IsRun(Init(workers), steps)
      && After(Init(workers), steps).jobs == map[j := Job(if ok then Succeeded else Failed, 1, created)]
      && After(Init(workers), steps).results == [j]
  {
    var s0 := Init(workers);
    var s1 := Next(s0, Submit(j, created));
    assert !Locked(s1, j) && Selectable(s1, j);
    var s2 := Next(s1, Select(w, j));
    var s3 := Next(s2, CommitClaim(w));
    var s4 := Next(s3, CommitResult(w, ok));
    Cons(s3, CommitResult(w, ok), []);
    Cons(s2, CommitClaim(w), [CommitResult(w, ok)]);
    Cons(s1, Select(w, j), [CommitClaim(w), CommitResult(w, ok)]);
    Cons(s0, Submit(j, created), [Select(w, j), CommitClaim(w), CommitResult(w, ok)]);
  }

  lemma {:induction false} Cons(s: State, step: Step, rest: seq<Step>)
    requires Enabled(s, step) && IsRun(Next(s, step), rest)
    ensures IsRun(s, [step] + rest) && After(s, [step] + rest) == After(Next(s, step), rest)
  {
    assert ([step] + rest)[1..] == rest;
  }

  // The unique result row is never in the way: a worker that processes a job can always
  // commit its outcome.
  lemma {:induction false} ResultsNeverConflict(workers: set<WorkerId>, steps: seq<Step>, w: WorkerId, ok: bool)
    requires IsRun(Init(workers), steps)
    requires var s := After(Init(workers), steps); w in s.workers && s.workers[w].Processing?
    ensures Enabled(After(Init(workers), steps), CommitResult(w, ok))
  {
    RunKeeps(Init(workers), steps);
  }

  // A job whose worker was lost while processing is stuck: it stays running, without a
  // result, whatever happens next.
  ghost predicate Stuck(s: State, j: JobId) {
    && j in s.jobs && s.jobs[j].status == Running
    && forall w :: w in s.workers && !s.workers[w].Idle? ==> s.workers[w].job != j
  }

  lemma {:induction false} StuckForEver(s: State, steps: seq<Step>, j: JobId)
    requires Stuck(s, j) && IsRun(s, steps)
    ensures Stuck(After(s, steps), j) && After(s, steps).jobs[j] == s.jobs[j]
    decreases |steps|
  {
    if steps != [] {
      StuckForEver(Next(s, steps[0]), steps[1..], j);
    }
  }

  // An abandoned job is stuck exactly if its worker was processing it: before the claim is
  // committed nothing is lost, the lock is released and the job is pending again.
  lemma {:induction false} StuckIffProcessing(workers: set<WorkerId>, steps: seq<Step>, w: WorkerId)
    requires IsRun(Init(workers), steps)
    requires var s := After(Init(workers), steps); w in s.workers && !s.workers[w].Idle?
    ensures var s := After(Init(workers), steps);
      var j := s.workers[w].job;
      && (Stuck(Next(s, Abandon(w)), j) <==> s.workers[w].Processing?)
      && (!s.workers[w].Processing? ==>
            j in s.jobs && s.jobs[j].status == Pending && !Locked(Next(s, Abandon(w)), j)
            && Next(s, Abandon(w)).jobs == s.jobs)
  {
    RunKeeps(Init(workers), steps);
    var s := After(Init(workers), steps);
    forall v | v in s.workers && v != w ensures s.workers[v] != Selected(s.workers[w].job) {
      assert !s.workers[v].Idle? ==> s.workers[v].job != s.workers[w].job;
    }
  }

  lemma {:induction false} LostWorkersLeaveStuckJobs(
    workers: set<WorkerId>, steps: seq<Step>, w: WorkerId, later: seq<Step>)
    requires IsRun(Init(workers), steps)
    requires var s := After(Init(workers), steps);
      && w in s.workers && s.workers[w].Processing? && Enabled(s, Abandon(w))
      && IsRun(Next(s, Abandon(w)), later)
    ensures var s := After(Init(workers), steps);
      var t := After(Next(s, Abandon(w)), later);
      var j := s.workers[w].job;
      j in t.jobs && t.jobs[j].status == Running && j !in t.results
  {
    RunKeeps(Init(workers), steps);
    LostJobSticks(After(Init(workers), steps), w, later);
  }

  lemma {:induction false} LostJobSticks(s: State, w: WorkerId, later: seq<Step>)
    requires Inv(s) && w in s.workers && s.workers[w].Processing? && IsRun(Next(s, Abandon(w)), later)
    ensures var t := After(Next(s, Abandon(w)), later);
      var j := s.workers[w].job;
      j in t.jobs && t.jobs[j].status == Running && j !in t.results
  {
    var t := Next(s, Abandon(w));
    StepKeeps(s, Abandon(w));
    assert Stuck(t, s.workers[w].job);
    StuckForEver(t, later, s.workers[w].job);
    RunKeeps(t, later);
  }
}
