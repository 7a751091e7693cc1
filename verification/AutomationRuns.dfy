/** Run lifecycle of the automation engine: the polling worker loop
    (apps/automation_agent/executor/worker.py), triggers, and dead-letter replay
    (apps/automation_agent/api/dlq.py), as a state machine over interleaved
    steps. Each step is one committed transaction or one event in a worker. */
module AutomationRuns {
  import opened Wrappers

  type RunId = nat
  type WorkerId = nat

  datatype Status = Pending | Running | Succeeded | Failed

  // `dlq` is the replay count of the run's dead-letter row, if it has one (the row's
  // run id is unique). `executions` counts how often the run was executed; it is not
  // a column.
  datatype Row = Row(status: Status, created: nat, dlq: Option<nat>, executions: nat)
  {
    function Replays(): nat {
      if dlq.Some? then dlq.value else 0
    }

    function Owed(): nat {
      if status == Pending then 1 else 0
    }
  }

  // A worker reads a batch, commits the claim, starts one task per claimed run, and
  // polls again only when all its tasks are done.
  datatype Worker =
    | Idle
    | Polled(batch: set<RunId>)
    | Gathering(claimed: set<RunId>, executing: multiset<RunId>)

  datatype State = State(runs: map<RunId, Row>, workers: map<WorkerId, Worker>, limit: nat)

  // How an execution ends: well; failed, filed as a dead letter; failed because the
  // automation is gone; or with an exception (among them the unique dead-letter index)
  // that leaves the row as last committed.
  datatype End = Well | DeadLetter | Orphaned | Raised

  datatype Step =
    | Trigger(run: RunId, created: nat)
    | Poll(worker: WorkerId, batch: set<RunId>)
    | PollFails(worker: WorkerId)
    | Claim(worker: WorkerId)
    | Begin(worker: WorkerId, run: RunId)
    | Finish(worker: WorkerId, run: RunId, end: End)
    | Gathered(worker: WorkerId)
    | Crash(worker: WorkerId)
    | Replay(run: RunId)

  function PendingRuns(s: State): set<RunId> {
    set r | r in s.runs && s.runs[r].status == Pending
  }

  // The `limit` oldest pending runs.
  ghost predicate IsOldest(s: State, batch: set<RunId>) {
    && batch <= PendingRuns(s)
    && |batch| == (if |PendingRuns(s)| < s.limit then |PendingRuns(s)| else s.limit)
    && forall b, p :: b in batch && p in PendingRuns(s) - batch ==> s.runs[b].created <= s.runs[p].created
  }

  ghost predicate Enabled(s: State, step: Step) {
    match step
    case Trigger(r, c) => r !in s.runs
    case Poll(w, batch) => w in s.workers && s.workers[w] == Idle && IsOldest(s, batch)
    case PollFails(w) => w in s.workers && s.workers[w].Polled?
    case Claim(w) => w in s.workers && s.workers[w].Polled? && s.workers[w].batch <= s.runs.Keys
    case Begin(w, r) => w in s.workers && s.workers[w].Gathering? && r in s.workers[w].claimed && r in s.runs
    case Finish(w, r, end) =>
      && w in s.workers && s.workers[w].Gathering? && r in s.workers[w].executing && r in s.runs
      && (end == DeadLetter ==> s.runs[r].dlq == None)
    case Gathered(w) => w in s.workers && s.workers[w] == Gathering({}, multiset{})
    case Crash(w) => w in s.workers
    case Replay(r) => r in s.runs && s.runs[r].dlq.Some?
  }

  function Ended(row: Row, end: End): Row {
    match end
    case Well => row.(status := Succeeded)
    case DeadLetter => row.(status := Failed, dlq := Some(0))
    case Orphaned => row.(status := Failed)
    case Raised => row
  }

  // An awaiting task executes the run it finds pending or running, and skips any other.
  function Begun(row: Row): Row {
    if row.status == Pending || row.status == Running
    then row.(status := Running, executions := row.executions + 1) else row
  }

  ghost function Next(s: State, step: Step): State
    requires Enabled(s, step)
  {
    match step
    case Trigger(r, c) => s.(runs := s.runs[r := Row(Pending, c, None, 0)])
    case Poll(w, batch) => s.(workers := s.workers[w := Polled(batch)])
    case PollFails(w) => s.(workers := s.workers[w := Idle])
    case Claim(w) =>
      var batch := s.workers[w].batch;
      s.(workers := s.workers[w := Gathering(batch, multiset{})],
         runs := map r | r in s.runs :: if r in batch then s.runs[r].(status := Running) else s.runs[r])
    case Begin(w, r) =>
      var g := s.workers[w];
      var row := Begun(s.runs[r]);
      s.(workers := s.workers[w := Gathering(g.claimed - {r},
                                 if row == s.runs[r] then g.executing else g.executing + multiset{r})],
         runs := s.runs[r := row])
    case Finish(w, r, end) =>
      var g := s.workers[w];
      s.(workers := s.workers[w := g.(executing := g.executing - multiset{r})],
         runs := s.runs[r := Ended(s.runs[r], end)])
    case Gathered(w) => s.(workers := s.workers[w := Idle])
    case Crash(w) => s.(workers := s.workers[w := Idle])
    case Replay(r) =>
      var row := s.runs[r];
      s.(runs := s.runs[r := row.(status := Pending, dlq := Some(row.dlq.value + 1))])
  }

  function Init(workers: set<WorkerId>, limit: nat): State {
    State(map[], map w | w in workers :: Idle, limit)
  }

  ghost predicate IsRun(s: State, steps: seq<Step>)
    decreases |steps|
  {
    steps != [] ==> Enabled(s, steps[0]) && IsRun(Next(s, steps[0]), steps[1..])
  }

  ghost function After(s: State, steps: seq<Step>): State
    requires IsRun(s, steps)
    decreases |steps|
  {
    if steps == [] then s else After(Next(s, steps[0]), steps[1..])
  }

  /******* The engine *******/

  // The code that makes the steps, over the run table and the workers' batches.
  class Engine {
    var runs: map<RunId, Row>
    var workers: map<WorkerId, Worker>
    const limit: nat

    constructor (workers: set<WorkerId>, limit: nat)
      ensures Snapshot() == Init(workers, limit)
    {
      this.runs, this.limit := map[], limit;
      this.workers := map w | w in workers :: Idle;
    }

    ghost function Snapshot(): State
      reads this
    {
      State(runs, workers, limit)
    }

    method CreateRun(r: RunId, created: nat)
      requires Enabled(Snapshot(), Trigger(r, created))
      modifies this`runs
      ensures Snapshot() == Next(old(Snapshot()), Trigger(r, created))
      ensures runs == old(runs)[r := Row(Pending, created, None, 0)]
    {
      runs := runs[r := Row(Pending, created, None, 0)];
    }

    // Marks the polled runs as running, one after the other, and commits.
    method ClaimBatch(w: WorkerId)
      requires Enabled(Snapshot(), Claim(w))
      modifies this
      ensures Snapshot() == Next(old(Snapshot()), Claim(w))
      ensures runs.Keys == old(runs).Keys && forall r :: r in runs ==>
        && runs[r].status == (if r in old(workers[w].batch) then Running else old(runs)[r].status)
        && runs[r].created == old(runs)[r].created && runs[r].dlq == old(runs)[r].dlq
        && runs[r].executions == old(runs)[r].executions
      ensures workers == old(workers)[w := Gathering(old(workers[w].batch), multiset{})]
    {
      var batch := workers[w].batch;
      var todo := batch;
      while todo != {}
        invariant todo <= batch && workers == old(workers) && runs.Keys == old(runs).Keys
        invariant forall r :: r in runs ==>
          runs[r] == if r in batch - todo then old(runs)[r].(status := Running) else old(runs)[r]
      {
        var r :| r in todo;
        runs := runs[r := runs[r].(status := Running)];
        todo := todo - {r};
      }
      workers := workers[w := Gathering(batch, multiset{})];
    }

    // A task looks its run up again and executes it unless it is over.
    method BeginRun(w: WorkerId, r: RunId) returns (executes: bool)
      requires Enabled(Snapshot(), Begin(w, r))
      modifies this
      ensures Snapshot() == Next(old(Snapshot()), Begin(w, r))
      ensures executes <==> old(runs)[r].status in {Pending, Running}
      ensures runs == if executes then old(runs)[r := Row(Running, old(runs)[r].created, old(runs)[r].dlq,
                                                          old(runs)[r].executions + 1)]
                      else old(runs)
    {
      var g := workers[w];
      executes := runs[r].status == Pending || runs[r].status == Running;
      if executes {
        runs := runs[r := runs[r].(status := Running, executions := runs[r].executions + 1)];
        workers := workers[w := Gathering(g.claimed - {r}, g.executing + multiset{r})];
      } else {
        workers := workers[w := g.(claimed := g.claimed - {r})];
      }
    }

    // How an execution ends. A failure is filed as a dead letter unless the automation is
    // gone; the filing itself raises when the run has a dead-letter row already, and then
    // nothing of the ending is committed.
    method EndRun(w: WorkerId, r: RunId, found: bool, success: bool) returns (end: End)
      requires w in workers && workers[w].Gathering? && r in workers[w].executing && r in runs
      modifies this
      ensures Enabled(old(Snapshot()), Finish(w, r, end)) && Snapshot() == Next(old(Snapshot()), Finish(w, r, end))
      ensures var row := old(runs)[r];
        runs == if !found then old(runs)[r := Row(Failed, row.created, row.dlq, row.executions)]
                else if success then old(runs)[r := Row(Succeeded, row.created, row.dlq, row.executions)]
                else if row.dlq == None then old(runs)[r := Row(Failed, row.created, Some(0), row.executions)]
                else old(runs)
      ensures workers == old(workers)[w := Gathering(old(workers[w].claimed), old(workers[w].executing) - multiset{r})]
    {
      if !found {
        end, runs := Orphaned, runs[r := runs[r].(status := Failed)];
      } else if success {
        end, runs := Well, runs[r := runs[r].(status := Succeeded)];
      } else if runs[r].dlq.None? {
        end := DeadLetter;
        runs := runs[r := runs[r].(status := Failed, dlq := Some(0))];
      } else {
        end := Raised;
      }
      workers := workers[w := workers[w].(executing := workers[w].executing - multiset{r})];
      assert runs == Next(old(Snapshot()), Finish(w, r, end)).runs;
    }

    // Found only if the run has a dead-letter row, whatever its status is by now.
    method ReplayRun(r: RunId) returns (found: bool)
      modifies this`runs
      ensures found <==> Enabled(old(Snapshot()), Replay(r))
      ensures Snapshot() == if found then Next(old(Snapshot()), Replay(r)) else old(Snapshot())
      ensures found <==> r in old(runs) && old(runs)[r].dlq != None
      ensures found ==>
        && r in PendingRuns(Snapshot())
        && runs == old(runs)[r := Row(Pending, old(runs)[r].created, Some(old(runs)[r].dlq.value + 1),
                                      old(runs)[r].executions)]
    {
      found := r in runs && runs[r].dlq.Some?;
      if found {
        runs := runs[r := runs[r].(status := Pending)];
        runs := runs[r := runs[r].(dlq := Some(runs[r].dlq.value + 1))];
      }
    }
  }

  /******* Execution accounting *******/

  function Claimed(s: State, w: WorkerId, r: RunId): nat {
    if w in s.workers && s.workers[w].Gathering? && r in s.workers[w].claimed then 1 else 0
  }

  function Executing(s: State, w: WorkerId, r: RunId): nat {
    if w in s.workers && s.workers[w].Gathering? then s.workers[w].executing[r] else 0
  }

  // Executions that have happened or are still due never exceed one per creation and
  // replay.
  ghost predicate Accounted(s: State) {
    forall r :: r in s.runs ==> s.runs[r].executions + s.runs[r].Owed() <= 1 + s.runs[r].Replays()
  }

  ghost predicate OneAtATime(s: State) {
    forall v, w, r :: v in s.workers && w in s.workers && Executing(s, v, r) > 0 ==>
      Executing(s, v, r) == 1 && (v != w ==> Executing(s, w, r) == 0)
  }

  // No worker but w.
  ghost predicate Inv(s: State, w: WorkerId) {
    && s.workers.Keys <= {w}
    && (w in s.workers && s.workers[w].Polled? ==> s.workers[w].batch <= PendingRuns(s))
    && (forall r :: r in s.runs ==> Balanced(s, w, r))
    && (forall r :: Executing(s, w, r) + Claimed(s, w, r) > 0 ==> Tasked(s, w, r))
  }

  ghost predicate Balanced(s: State, w: WorkerId, r: RunId)
    requires r in s.runs
  {
    s.runs[r].executions + s.runs[r].Owed() + Claimed(s, w, r) <= 1 + s.runs[r].Replays()
  }

  ghost predicate Tasked(s: State, w: WorkerId, r: RunId) {
    && r in s.runs && (s.runs[r].status == Pending || s.runs[r].status == Running)
    && Executing(s, w, r) + Claimed(s, w, r) == 1
  }

  lemma {:induction false} ClaimKeeps(s: State, w: WorkerId)
    requires Inv(s, w) && Enabled(s, Claim(w))
    ensures Inv(Next(s, Claim(w)), w)
  {
    var t := Next(s, Claim(w));
    forall r | r in t.runs ensures Balanced(t, w, r) {
      assert Balanced(s, w, r);
      assert r in s.workers[w].batch ==> r in PendingRuns(s);
    }
  }

  lemma {:induction false} TaskKeeps(s: State, step: Step, w: WorkerId)
    requires Inv(s, w) && (step.Begin? || step.Finish?) && Enabled(s, step)
    ensures Inv(Next(s, step), w)
  {
    var t := Next(s, step);
    assert Tasked(s, w, step.run);
    forall r | r in t.runs ensures Balanced(t, w, r) {
      assert Balanced(s, w, r);
    }
    forall r | Executing(t, w, r) + Claimed(t, w, r) > 0 ensures Tasked(t, w, r) {
      assert Tasked(s, w, r);
    }
  }

  lemma {:induction false} StepKeeps(s: State, step: Step, w: WorkerId)
    requires Inv(s, w) && Enabled(s, step)
    ensures Inv(Next(s, step), w)
  {
    match step
    case Claim(v) => ClaimKeeps(s, w);
    case Begin(v, r) => TaskKeeps(s, step, w);
    case Finish(v, r, end) => TaskKeeps(s, step, w);
    case Trigger(r, c) => ArrivalKeeps(s, step, w);
    case Replay(r) => ArrivalKeeps(s, step, w);
    case _ =>
      assert forall r :: r in s.runs ==> Balanced(s, w, r);
  }

  lemma {:induction false} ArrivalKeeps(s: State, step: Step, w: WorkerId)
    requires Inv(s, w) && (step.Trigger? || step.Replay?) && Enabled(s, step)
    ensures Inv(Next(s, step), w)
  {
    var t := Next(s, step);
    forall r | r in t.runs ensures Balanced(t, w, r) {
      assert r in s.runs ==> Balanced(s, w, r);
      assert Claimed(s, w, r) > 0 ==> Tasked(s, w, r);
    }
    forall r | Executing(t, w, r) + Claimed(t, w, r) > 0 ensures Tasked(t, w, r) {
      assert Tasked(s, w, r);
    }
  }

  lemma {:induction false} RunKeeps(s: State, steps: seq<Step>, w: WorkerId)
    requires Inv(s, w) && IsRun(s, steps)
    ensures Inv(After(s, steps), w)
    decreases |steps|
  {
    if steps != [] {
      StepKeeps(s, steps[0], w);
      RunKeeps(Next(s, steps[0]), steps[1..], w);
    }
  }

  // Two workers that both read a pending run before either commits its claim both
  // execute it.
  lemma {:induction false} BothExecute(s: State, v: WorkerId, w: WorkerId, r: RunId) returns (steps: seq<Step>)
    requires v in s.workers && w in s.workers && v != w
    requires s.workers[v] == s.workers[w] == Polled({r})
    requires r in s.runs && s.runs[r].status == Pending
    ensures IsRun(s, steps)
    ensures var t := After(s, steps);
      && r in t.runs && t.runs[r] == s.runs[r].(status := Running, executions := s.runs[r].executions + 2)
      && v in t.workers && w in t.workers && Executing(t, v, r) == 1 && Executing(t, w, r) == 1
  {
    var s1 := Next(s, Claim(v));
    var s2 := Next(s1, Claim(w));
    assert s2.runs[r] == s.runs[r].(status := Running);
    var s3 := Next(s2, Begin(v, r));
    var s4 := Next(s3, Begin(w, r));
    steps := [];
    steps := Prepend(s3, Begin(w, r), steps);
    steps := Prepend(s2, Begin(v, r), steps);
    steps := Prepend(s1, Claim(w), steps);
    steps := Prepend(s, Claim(v), steps);
  }

  lemma {:induction false} TwoWorkersExecuteTwice(workers: set<WorkerId>, limit: nat, v: WorkerId, w: WorkerId)
    returns (steps: seq<Step>)
    requires limit >= 1 && v in workers && w in workers && v != w
    ensures var s := Init(workers, limit);
      IsRun(s, steps) && !Accounted(After(s, steps)) && !OneAtATime(After(s, steps))
  {
    var s0 := Init(workers, limit);
    var s1 := Next(s0, Trigger(0, 0));
    assert PendingRuns(s1) == {0};
    var s2 := Next(s1, Poll(v, {0}));
    assert PendingRuns(s2) == {0};
    var s3 := Next(s2, Poll(w, {0}));
    steps := BothExecute(s3, v, w, 0);
    steps := Prepend(s2, Poll(w, {0}), steps);
    steps := Prepend(s1, Poll(v, {0}), steps);
    steps := Prepend(s0, Trigger(0, 0), steps);
  }

  lemma {:induction false} Prepend(s: State, step: Step, rest: seq<Step>) returns (steps: seq<Step>)
    requires Enabled(s, step) && IsRun(Next(s, step), rest)
    ensures IsRun(s, steps) && After(s, steps) == After(Next(s, step), rest)
  {
    steps := [step] + rest;
    assert steps[1..] == rest;
  }

  /******* The bound is reached *******/

  // One worker, one run: what the run table and the worker look like between executions.
  ghost predicate Resting(s: State, w: WorkerId, row: Row) {
    s.runs == map[0 := row] && w in s.workers && s.workers[w] == Idle && s.limit >= 1
  }

  ghost predicate Taken(s: State, w: WorkerId, row: Row) {
    s.runs == map[0 := row] && w in s.workers && s.workers[w] == Gathering({0}, multiset{}) && s.limit >= 1
  }

  lemma {:induction false} TakeIt(s: State, w: WorkerId, row: Row) returns (steps: seq<Step>)
    requires Resting(s, w, row) && row.status == Pending
    ensures IsRun(s, steps) && Taken(After(s, steps), w, row.(status := Running))
  {
    assert PendingRuns(s) == {0};
    var s1 := Next(s, Poll(w, {0}));
    var s2 := Next(s1, Claim(w));
    assert s2.runs == map[0 := row.(status := Running)];
    steps := Prepend(s1, Claim(w), []);
    steps := Prepend(s, Poll(w, {0}), steps);
  }

  lemma {:induction false} FinishIt(s: State, w: WorkerId, row: Row, end: End) returns (steps: seq<Step>)
    requires Taken(s, w, row) && row.status == Running && (end == DeadLetter ==> row.dlq == None)
    ensures IsRun(s, steps) && Resting(After(s, steps), w, Ended(row.(executions := row.executions + 1), end))
  {
    var s3 := Next(s, Begin(w, 0));
    assert s3.runs == map[0 := row.(executions := row.executions + 1)];
    steps := EndIt(s3, w, row.(executions := row.executions + 1), end);
    steps := Prepend(s, Begin(w, 0), steps);
  }

  lemma {:induction false} EndIt(s: State, w: WorkerId, row: Row, end: End) returns (steps: seq<Step>)
    requires s.runs == map[0 := row] && w in s.workers && s.workers[w] == Gathering({}, multiset{0}) && s.limit >= 1
    requires end == DeadLetter ==> row.dlq == None
    ensures IsRun(s, steps) && Resting(After(s, steps), w, Ended(row, end))
  {
    var s1 := Next(s, Finish(w, 0, end));
    steps := Prepend(s1, Gathered(w), []);
    steps := Prepend(s, Finish(w, 0, end), steps);
  }

  // Polled, claimed, executed, and ended in some way.
  lemma {:induction false} ExecuteOnce(s: State, w: WorkerId, row: Row, end: End) returns (steps: seq<Step>)
    requires Resting(s, w, row) && row.status == Pending && (end == DeadLetter ==> row.dlq == None)
    ensures IsRun(s, steps)
    ensures Resting(After(s, steps), w, Ended(row.(status := Running, executions := row.executions + 1), end))
  {
    var taken := TakeIt(s, w, row);
    var ended := FinishIt(After(s, taken), w, row.(status := Running), end);
    steps := RunThen(s, taken, ended);
  }

  // A dead-lettered run that is replayed again and again is executed every time, although it
  // stays `running` each time it fails: the dead letter cannot be filed twice.
  lemma {:induction false} ReplayAgain(s: State, w: WorkerId, row: Row, n: nat) returns (steps: seq<Step>)
    requires Resting(s, w, row) && row.dlq.Some?
    ensures IsRun(s, steps)
    ensures Resting(After(s, steps), w,
                    Row(if n > 0 then Running else row.status, row.created, Some(row.dlq.value + n),
                        row.executions + n))
    decreases n
  {
    steps := [];
    if n > 0 {
      var s1 := Next(s, Replay(0));
      var replayed := row.(status := Pending, dlq := Some(row.dlq.value + 1));
      assert Resting(s1, w, replayed);
      var once := ExecuteOnce(s1, w, replayed, Raised);
      var again := replayed.(status := Running, executions := row.executions + 1);
      var rest := ReplayAgain(After(s1, once), w, again, n - 1);
      steps := RunThen(s1, once, rest);
      steps := Prepend(s, Replay(0), steps);
    }
  }

  lemma {:induction false} RunThen(s: State, a: seq<Step>, b: seq<Step>) returns (steps: seq<Step>)
    requires IsRun(s, a) && IsRun(After(s, a), b)
    ensures IsRun(s, steps) && After(s, steps) == After(After(s, a), b)
    decreases |a|
  {
    if a == [] {
      steps := b;
    } else {
      var rest := RunThen(Next(s, a[0]), a[1..], b);
      steps := Prepend(s, a[0], rest);
    }
  }

  // The accounting is exact: for any number n of replays some interleaving executes a run
  // 1 + n times.
  lemma {:induction false} BoundIsReached(
    workers: set<WorkerId>, limit: nat, w: WorkerId, n: nat) returns (steps: seq<Step>)
    requires limit >= 1 && w in workers
    ensures IsRun(Init(workers, limit), steps)
    ensures var t := After(Init(workers, limit), steps);
      0 in t.runs && t.runs[0].dlq == Some(n) && t.runs[0].executions == 1 + n
  {
    var s := Init(workers, limit);
    var s1 := Next(s, Trigger(0, 0));
    assert Resting(s1, w, Row(Pending, 0, None, 0));
    steps := FailAndReplay(s1, w, n);
    steps := Prepend(s, Trigger(0, 0), steps);
  }

  lemma {:induction false} FailAndReplay(s: State, w: WorkerId, n: nat) returns (steps: seq<Step>)
    requires Resting(s, w, Row(Pending, 0, None, 0))
    ensures IsRun(s, steps)
    ensures Resting(After(s, steps), w, Row(if n > 0 then Running else Failed, 0, Some(n), 1 + n))
  {
    var first := ExecuteOnce(s, w, Row(Pending, 0, None, 0), DeadLetter);
    var rest := ReplayAgain(After(s, first), w, Row(Failed, 0, Some(0), 1), n);
    steps := RunThen(s, first, rest);
  }

  lemma {:induction false} AtMostOne(workers: set<WorkerId>, w: WorkerId)
    requires |workers| <= 1 && (workers != {} ==> w in workers)
    ensures workers <= {w}
  {
    if workers != {} {
      assert |workers - {w}| == |workers| - 1;
      assert workers == (workers - {w}) + {w};
    }
  }

  // With replays, crashes and triggers interleaved at will, executions stay within one
  // per creation and replay, and no run is executed by two tasks at once, exactly when
  // there is at most one worker loop.
  lemma {:induction false} AccountingIffOneWorker(workers: set<WorkerId>, limit: nat)
    requires limit >= 1
    ensures (forall steps :: IsRun(Init(workers, limit), steps) ==>
               Accounted(After(Init(workers, limit), steps)) && OneAtATime(After(Init(workers, limit), steps)))
       <==> |workers| <= 1
  {
    var s := Init(workers, limit);
    if |workers| <= 1 {
      var w: WorkerId := if workers == {} then 0 else var v :| v in workers; v;
      AtMostOne(workers, w);
      forall steps | IsRun(s, steps) ensures Accounted(After(s, steps)) && OneAtATime(After(s, steps)) {
        RunKeeps(s, steps, w);
        var t := After(s, steps);
        forall r | r in t.runs ensures t.runs[r].executions + t.runs[r].Owed() <= 1 + t.runs[r].Replays() {
          assert Balanced(t, w, r);
        }
        forall r | Executing(t, w, r) > 0 ensures Executing(t, w, r) == 1 {
          assert Tasked(t, w, r);
        }
      }
    } else {
      var v, w := TwoOf(workers);
      var steps := TwoWorkersExecuteTwice(workers, limit, v, w);
    }
  }

  lemma {:induction false} SubsetSize<T>(a: set<T>, b: set<T>)
    requires a <= b
    ensures |a| <= |b|
    decreases |a|
  {
    if a != {} {
      var x :| x in a;
      SubsetSize(a - {x}, b - {x});
    }
  }

  // Under one worker loop a run that succeeded without ever failing stays succeeded.
  lemma {:induction false} SuccessIsFinal(s: State, steps: seq<Step>, w: WorkerId, r: RunId)
    requires Inv(s, w) && IsRun(s, steps)
    requires r in s.runs && s.runs[r].status == Succeeded && s.runs[r].dlq == None
    ensures r in After(s, steps).runs && After(s, steps).runs[r] == s.runs[r]
    decreases |steps|
  {
    if steps != [] {
      StepKeeps(s, steps[0], w);
      var t := Next(s, steps[0]);
      assert !Tasked(s, w, r);
      assert r !in PendingRuns(s);
      assert t.runs[r] == s.runs[r];
      SuccessIsFinal(t, steps[1..], w, r);
    }
  }

  // Two workers can also take a run that has succeeded back to running: one claims it late,
  // from a batch that it read before the other did.
  lemma {:induction false} LateClaimReopens(workers: set<WorkerId>, limit: nat, v: WorkerId, w: WorkerId)
    returns (steps: seq<Step>, more: seq<Step>)
    requires limit >= 1 && v in workers && w in workers && v != w
    ensures var s := Init(workers, limit);
      && IsRun(s, steps) && IsRun(After(s, steps), more) && !Final(After(s, steps), After(After(s, steps), more))
  {
    var s0 := Init(workers, limit);
    var s1 := Next(s0, Trigger(0, 0));
    assert PendingRuns(s1) == {0};
    var s2 := Next(s1, Poll(v, {0}));
    assert PendingRuns(s2) == {0};
    var s3 := Next(s2, Poll(w, {0}));
    steps := FinishedByOne(s3, v, w, 0);
    var s6 := After(s3, steps);
    assert Next(s6, Claim(w)).runs[0].status == Running;
    more := Prepend(s6, Claim(w), []);
    assert !Final(s6, After(s6, more));
    steps := Prepend(s2, Poll(w, {0}), steps);
    steps := Prepend(s1, Poll(v, {0}), steps);
    steps := Prepend(s0, Trigger(0, 0), steps);
  }

  lemma {:induction false} FinishedByOne(s: State, v: WorkerId, w: WorkerId, r: RunId) returns (steps: seq<Step>)
    requires v in s.workers && w in s.workers && v != w
    requires s.workers[v] == s.workers[w] == Polled({r})
    requires r in s.runs && s.runs[r].status == Pending && s.runs[r].dlq == None
    ensures IsRun(s, steps)
    ensures var t := After(s, steps);
      && r in t.runs && t.runs[r].status == Succeeded && t.runs[r].dlq == None
      && w in t.workers && t.workers[w] == Polled({r})
  {
    var s1 := Next(s, Claim(v));
    var s2 := Next(s1, Begin(v, r));
    steps := [];
    steps := Prepend(s2, Finish(v, r, Well), steps);
    steps := Prepend(s1, Begin(v, r), steps);
    steps := Prepend(s, Claim(v), steps);
  }

  // Every run that has succeeded without a dead-letter row is as it was.
  ghost predicate Final(s: State, later: State) {
    forall r :: r in s.runs && s.runs[r].status == Succeeded && s.runs[r].dlq == None ==>
      r in later.runs && later.runs[r] == s.runs[r]
  }

  // Success is final in every interleaving exactly when there is at most one worker loop.
  lemma {:induction false} SuccessIsFinalIffOneWorker(workers: set<WorkerId>, limit: nat)
    requires limit >= 1
    ensures (forall steps, more :: IsRun(Init(workers, limit), steps) && IsRun(After(Init(workers, limit), steps), more)
               ==> Final(After(Init(workers, limit), steps), After(After(Init(workers, limit), steps), more)))
       <==> |workers| <= 1
  {
    var s := Init(workers, limit);
    if |workers| <= 1 {
      var w: WorkerId := if workers == {} then 0 else var v :| v in workers; v;
      AtMostOne(workers, w);
      forall steps, more | IsRun(s, steps) && IsRun(After(s, steps), more)
        ensures Final(After(s, steps), After(After(s, steps), more))
      {
        RunKeeps(s, steps, w);
        var t := After(s, steps);
        forall r | r in t.runs && t.runs[r].status == Succeeded && t.runs[r].dlq == None
          ensures r in After(t, more).runs && After(t, more).runs[r] == t.runs[r]
        {
          SuccessIsFinal(t, more, w, r);
        }
      }
    } else {
      var v, w := TwoOf(workers);
      var steps, more := LateClaimReopens(workers, limit, v, w);
    }
  }

  lemma {:induction false} TwoOf(workers: set<WorkerId>) returns (v: WorkerId, w: WorkerId)
    requires |workers| > 1
    ensures v in workers && w in workers && v != w
  {
    v :| v in workers;
    assert |workers - {v}| == |workers| - 1;
    w :| w in workers - {v};
  }

  // A run whose task died with its worker stays `running` for ever: no poll finds it,
  // and without a dead-letter row nobody can replay it.
  ghost predicate Lost(s: State, r: RunId) {
    && r in s.runs && s.runs[r].status == Running && s.runs[r].dlq == None
    && forall w :: w in s.workers ==>
         Executing(s, w, r) + Claimed(s, w, r) == 0 && (s.workers[w].Polled? ==> r !in s.workers[w].batch)
  }

  lemma {:induction false} LostStaysLost(s: State, steps: seq<Step>, r: RunId)
    requires Lost(s, r) && IsRun(s, steps)
    ensures Lost(After(s, steps), r) && After(s, steps).runs[r] == s.runs[r]
    decreases |steps|
  {
    if steps != [] {
      var t := Next(s, steps[0]);
      assert r !in PendingRuns(s);
      assert Lost(t, r) && t.runs[r] == s.runs[r];
      LostStaysLost(t, steps[1..], r);
    }
  }

  // After a crash of the only worker, exactly the running runs without a dead-letter row
  // are lost.
  lemma {:induction false} CrashLosesItsRuns(s: State, w: WorkerId, r: RunId)
    requires Inv(s, w) && w in s.workers
    ensures Lost(Next(s, Crash(w)), r) <==> r in s.runs && s.runs[r].status == Running && s.runs[r].dlq == None
  {
  }

  /******* Bounded waiting *******/

  // The other pending runs that are not younger than r.
  function Older(s: State, r: RunId): set<RunId>
    requires r in s.runs
  {
    set q | q in s.runs && q != r && s.runs[q].status == Pending && s.runs[q].created <= s.runs[r].created
  }

  function Claims(steps: seq<Step>): nat {
    if steps == [] then 0 else (if steps[0].Claim? then 1 else 0) + Claims(steps[1..])
  }

  ghost predicate NoReplays(steps: seq<Step>) {
    forall i :: 0 <= i < |steps| ==> !steps[i].Replay?
  }

  // Clocks do not run backwards: whatever arrives is younger.
  ghost predicate ArrivalsAfter(steps: seq<Step>, time: nat) {
    forall i :: 0 <= i < |steps| && steps[i].Trigger? ==> steps[i].created > time
  }

  // A batch that was read while r was pending takes r, or a full load of older runs.
  ghost predicate FairBatch(s: State, w: WorkerId, r: RunId)
    requires r in s.runs
  {
    w in s.workers && s.workers[w].Polled? ==>
      r in s.workers[w].batch || (|s.workers[w].batch| == s.limit && s.workers[w].batch <= Older(s, r))
  }

  lemma {:induction false} PollIsFair(s: State, w: WorkerId, batch: set<RunId>, r: RunId)
    requires r in s.runs && s.runs[r].status == Pending && Enabled(s, Poll(w, batch))
    ensures r in batch || (|batch| == s.limit && batch <= Older(s, r))
  {
    if r !in batch {
      assert r in PendingRuns(s) - batch;
      SubsetSize(batch + {r}, PendingRuns(s));
      forall b | b in batch ensures b in Older(s, r) {
        assert b in PendingRuns(s);
      }
    }
  }

  lemma {:induction false} WaitingStep(s: State, step: Step, w: WorkerId, r: RunId)
    requires Inv(s, w) && Enabled(s, step) && !step.Replay?
    requires r in s.runs && s.runs[r].status == Pending && FairBatch(s, w, r)
    requires step.Trigger? ==> step.created > s.runs[r].created
    ensures var t := Next(s, step);
      && r in t.runs
      && (t.runs[r].status == Pending ==>
            && FairBatch(t, w, r)
            && |Older(t, r)| + (if step.Claim? then s.limit else 0) <= |Older(s, r)|)
  {
    var t := Next(s, step);
    if step.Poll? {
      PollIsFair(s, w, step.batch, r);
      assert Older(t, r) == Older(s, r);
    } else if step.Claim? {
      ClaimStep(s, w, r);
    } else {
      OtherStep(s, step, w, r);
    }
  }

  lemma {:induction false} OtherStep(s: State, step: Step, w: WorkerId, r: RunId)
    requires Inv(s, w) && Enabled(s, step) && !step.Replay? && !step.Poll? && !step.Claim?
    requires r in s.runs && s.runs[r].status == Pending && FairBatch(s, w, r)
    requires step.Trigger? ==> step.created > s.runs[r].created
    ensures var t := Next(s, step);
      r in t.runs && (t.runs[r].status == Pending ==> FairBatch(t, w, r) && |Older(t, r)| <= |Older(s, r)|)
  {
    var t := Next(s, step);
    if step.Trigger? {
      assert Older(t, r) == Older(s, r);
    } else if t.runs[r].status == Pending {
      assert Older(t, r) <= Older(s, r);
      SubsetSize(Older(t, r), Older(s, r));
    }
  }

  lemma {:induction false} ClaimStep(s: State, w: WorkerId, r: RunId)
    requires Inv(s, w) && Enabled(s, Claim(w))
    requires r in s.runs && s.runs[r].status == Pending && FairBatch(s, w, r)
    ensures var t := Next(s, Claim(w));
      t.runs[r].status == Pending ==> |Older(t, r)| + s.limit <= |Older(s, r)|
  {
    var t := Next(s, Claim(w));
    var batch := s.workers[w].batch;
    if r !in batch {
      assert Older(t, r) == Older(s, r) - batch;
      SubsetSize(batch, Older(s, r));
    }
  }

  lemma {:induction false} WaitingLaw(s: State, steps: seq<Step>, w: WorkerId, r: RunId)
    requires Inv(s, w) && IsRun(s, steps) && NoReplays(steps)
    requires r in s.runs && s.runs[r].status == Pending && FairBatch(s, w, r)
    requires ArrivalsAfter(steps, s.runs[r].created)
    ensures var t := After(s, steps);
      r in t.runs && (t.runs[r].status == Pending ==> |Older(t, r)| + Claims(steps) * s.limit <= |Older(s, r)|)
    decreases |steps|
  {
    if steps != [] {
      var t := Next(s, steps[0]);
      StepKeeps(s, steps[0], w);
      WaitingStep(s, steps[0], w, r);
      if t.runs[r].status == Pending {
        WaitingLaw(t, steps[1..], w, r);
        ClaimsStep(steps, s.limit);
      } else {
        NeverPendingAgain(t, steps[1..], r);
      }
    }
  }

  lemma {:induction false} ClaimsStep(steps: seq<Step>, limit: nat)
    requires steps != []
    ensures Claims(steps) * limit == (if steps[0].Claim? then limit else 0) + Claims(steps[1..]) * limit
  {
    Distribute(if steps[0].Claim? then 1 else 0, Claims(steps[1..]), limit);
  }

  lemma {:induction false} Distribute(a: nat, b: nat, limit: nat)
    requires a <= 1
    ensures (a + b) * limit == (if a == 1 then limit else 0) + b * limit
  {
  }

  lemma {:induction false} NeverPendingAgain(s: State, steps: seq<Step>, r: RunId)
    requires IsRun(s, steps) && NoReplays(steps) && r in s.runs && s.runs[r].status != Pending
    ensures r in After(s, steps).runs && After(s, steps).runs[r].status != Pending
    decreases |steps|
  {
    if steps != [] {
      NeverPendingAgain(Next(s, steps[0]), steps[1..], r);
    }
  }

  lemma {:induction false} OlderShrinks(s: State, step: Step, w: WorkerId, r: RunId)
    requires Inv(s, w) && Enabled(s, step) && !step.Replay?
    requires r in s.runs && s.runs[r].status == Pending
    requires step.Trigger? ==> step.created > s.runs[r].created
    ensures var t := Next(s, step); r in t.runs && (t.runs[r].status == Pending ==> |Older(t, r)| <= |Older(s, r)|)
  {
    var t := Next(s, step);
    if t.runs[r].status == Pending {
      assert Older(t, r) <= Older(s, r);
      SubsetSize(Older(t, r), Older(s, r));
    }
  }

  // A batch that was read earlier may pass r by, so its claim may not bring r nearer.
  lemma {:induction false} LateLaw(s: State, steps: seq<Step>, w: WorkerId, r: RunId)
    requires Inv(s, w) && IsRun(s, steps) && NoReplays(steps) && w in s.workers && s.workers[w].Polled?
    requires r in s.runs && s.runs[r].status == Pending && ArrivalsAfter(steps, s.runs[r].created)
    ensures var t := After(s, steps);
      && r in t.runs
      && (t.runs[r].status == Pending ==> |Older(t, r)| + Claims(steps) * s.limit <= |Older(s, r)| + s.limit)
    decreases |steps|
  {
    if steps != [] {
      var t := Next(s, steps[0]);
      StepKeeps(s, steps[0], w);
      OlderShrinks(s, steps[0], w, r);
      ClaimsStep(steps, s.limit);
      if t.runs[r].status != Pending {
        NeverPendingAgain(t, steps[1..], r);
      } else if t.workers[w].Polled? {
        LateLaw(t, steps[1..], w, r);
      } else {
        WaitingLaw(t, steps[1..], w, r);
      }
    }
  }

  // Whatever happened before, and whatever the worker is doing: a pending run with k other
  // pending runs not younger than itself is claimed within k / limit + 1 claims, not counting
  // that of a batch that was read before, however many younger runs arrive meanwhile, as long
  // as nothing is replayed.
  lemma {:induction false} BoundedWaiting(w: WorkerId, limit: nat, before: seq<Step>, steps: seq<Step>, r: RunId)
    requires limit >= 1 && IsRun(Init({w}, limit), before)
    requires var s := After(Init({w}, limit), before);
      && IsRun(s, steps) && NoReplays(steps)
      && r in s.runs && s.runs[r].status == Pending && ArrivalsAfter(steps, s.runs[r].created)
      && Claims(steps) >= |Older(s, r)| / limit + 1 + Unclaimed(s, w)
    ensures var t := After(After(Init({w}, limit), before), steps);
      r in t.runs && t.runs[r].status != Pending
  {
    var s := After(Init({w}, limit), before);
    RunKeeps(Init({w}, limit), before, w);
    LimitIsFixed(Init({w}, limit), before);
    if Unclaimed(s, w) == 1 {
      LateLaw(s, steps, w, r);
      assert (Claims(steps) - 1) * limit == Claims(steps) * limit - limit;
      EnoughClaims(|Older(s, r)|, limit, Claims(steps) - 1);
    } else {
      WaitingLaw(s, steps, w, r);
      EnoughClaims(|Older(s, r)|, limit, Claims(steps));
    }
  }

  // Whether a batch has been read and is waiting to be claimed.
  function Unclaimed(s: State, w: WorkerId): nat {
    if w in s.workers && s.workers[w].Polled? then 1 else 0
  }

  lemma {:induction false} LimitIsFixed(s: State, steps: seq<Step>)
    requires IsRun(s, steps)
    ensures After(s, steps).limit == s.limit && After(s, steps).workers.Keys == s.workers.Keys
    decreases |steps|
  {
    if steps != [] {
      LimitIsFixed(Next(s, steps[0]), steps[1..]);
    }
  }

  lemma {:induction false} EnoughClaims(k: nat, limit: nat, claims: nat)
    requires limit >= 1 && claims >= k / limit + 1
    ensures claims * limit > k
  {
    assert claims * limit >= (k / limit + 1) * limit;
  }
}
