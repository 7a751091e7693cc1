/** One execution of a workflow (apps/automation_agent/executor/worker.py). */
module Workflow {
  import opened Wrappers

  datatype StepDef = StepDef(stepId: string, dependsOn: seq<string>, maxAttempts: int)

  datatype CallResult = Success | Failure(error: string)

  // How the world will answer: whether rendering step i's input raises, and what the
  // agent answers to attempt a (from 1) of step i.
  datatype World = World(renderError: nat -> Option<string>, answer: (nat, nat) -> CallResult)

  datatype StepStatus = Pending | InProgress | Succeeded | Failed
  datatype StepRow = StepRow(stepId: string, status: StepStatus, attempt: nat, lastError: Option<string>)
  datatype RunStatus = RunRunning | RunSucceeded | RunFailed

  // What happened, in order.
  datatype Event = Started(step: nat) | Called(step: nat, attempt: nat, ok: bool) | Ended(step: nat, ok: bool)

  /******* Specification *******/

  // The attempts from `a` on: they stop at the first success, or when they run out.
  function Calls(w: World, i: nat, a: nat, maxAttempts: int): seq<Event>
    decreases maxAttempts - a
  {
    if a > maxAttempts then []
    else if w.answer(i, a).Success? then [Called(i, a, true)]
    else [Called(i, a, false)] + Calls(w, i, a + 1, maxAttempts)
  }

  predicate Answered(w: World, i: nat, a: nat, maxAttempts: int)
    decreases maxAttempts - a
  {
    a <= maxAttempts && (w.answer(i, a).Success? || Answered(w, i, a + 1, maxAttempts))
  }

  predicate StepOk(w: World, steps: seq<StepDef>, i: nat)
    requires i < |steps|
  {
    w.renderError(i).None? && Answered(w, i, 1, steps[i].maxAttempts)
  }

  function StepTrace(w: World, steps: seq<StepDef>, i: nat): seq<Event>
    requires i < |steps|
  {
    [Started(i)]
    + (if w.renderError(i).Some? then [] else Calls(w, i, 1, steps[i].maxAttempts))
    + [Ended(i, StepOk(w, steps, i))]
  }

  // How many steps succeed before the first that does not.
  function Progress(w: World, steps: seq<StepDef>, i: nat): (k: nat)
    requires i <= |steps|
    ensures i <= k <= |steps|
    ensures forall j :: i <= j < k ==> StepOk(w, steps, j)
    ensures k < |steps| ==> !StepOk(w, steps, k)
    decreases |steps| - i
  {
    if i < |steps| && StepOk(w, steps, i) then Progress(w, steps, i + 1) else i
  }

  // The events of the first n steps.
  function Trace(w: World, steps: seq<StepDef>, n: nat): seq<Event>
    requires n <= |steps|
  {
    if n == 0 then [] else Trace(w, steps, n - 1) + StepTrace(w, steps, n - 1)
  }

  // Every step up to the first failing one is executed.
  function RunTrace(w: World, steps: seq<StepDef>): seq<Event> {
    var k := Progress(w, steps, 0);
    Trace(w, steps, if k < |steps| then k + 1 else k)
  }

  // The error a step without a success keeps, if its input could be rendered.
  function LastError(w: World, i: nat, maxAttempts: int): Option<string> {
    if maxAttempts < 1 then None
    else match w.answer(i, maxAttempts) case Failure(e) => Some(e) case Success => None
  }

  function Shown(error: Option<string>): string {
    if error.Some? then error.value else "None"
  }

  // Succeeded up to `done`, pending from `rest` on.
  ghost predicate Shaped(rows: seq<StepRow>, steps: seq<StepDef>, done: nat, rest: nat) {
    && |rows| == |steps|
    && (forall j :: 0 <= j < |rows| ==> rows[j].stepId == steps[j].stepId)
    && (forall j :: 0 <= j < |rows| && j < done ==> rows[j].status == Succeeded)
    && (forall j :: 0 <= j < |rows| && rest <= j ==> rows[j] == StepRow(steps[j].stepId, Pending, 1, None))
  }

  // What the row of an executed step says: a success stands at the first attempt that the
  // agent answered with one; a failure has made all its attempts and keeps the last error.
  ghost predicate RowTells(w: World, step: StepDef, i: nat, row: StepRow) {
    && row.stepId == step.stepId
    && match w.renderError(i)
       case Some(e) => row == StepRow(step.stepId, Failed, 1, Some("Templating failed: " + e))
       case None =>
         if row.status == Succeeded then
           && row.lastError == None
           && 1 <= row.attempt <= step.maxAttempts && w.answer(i, row.attempt).Success?
           && forall b :: 1 <= b < row.attempt ==> w.answer(i, b).Failure?
         else
           && row.status == Failed
           && (forall b :: 1 <= b <= step.maxAttempts ==> w.answer(i, b).Failure?)
           && if step.maxAttempts < 1 then row.attempt == 1 && row.lastError == None
              else row.attempt == step.maxAttempts && row.lastError == Some(w.answer(i, step.maxAttempts).error)
  }

  // The calls of a step are the agent's answers up to the first success.
  lemma {:induction false} CallTells(w: World, i: nat, a: nat, maxAttempts: int, j: nat)
    requires j < |Calls(w, i, a, maxAttempts)|
    ensures a + j <= maxAttempts
    ensures Calls(w, i, a, maxAttempts)[j] == Called(i, a + j, w.answer(i, a + j).Success?)
    decreases maxAttempts - a
  {
    if j > 0 {
      CallTells(w, i, a + 1, maxAttempts, j - 1);
    }
  }

  lemma {:induction false} AnswersTell(w: World, i: nat, a: nat, maxAttempts: int)
    ensures var n := |Calls(w, i, a, maxAttempts)|;
      if Answered(w, i, a, maxAttempts) then
        && n > 0 && a + n - 1 <= maxAttempts && w.answer(i, a + n - 1).Success?
        && forall b :: a <= b < a + n - 1 ==> w.answer(i, b).Failure?
      else
        && n == (if maxAttempts < a then 0 else maxAttempts - a + 1)
        && forall b :: a <= b <= maxAttempts ==> w.answer(i, b).Failure?
    decreases maxAttempts - a
  {
    if a <= maxAttempts && w.answer(i, a).Failure? {
      AnswersTell(w, i, a + 1, maxAttempts);
    }
  }

  lemma {:induction false} RowsStillTell(
    w: World, steps: seq<StepDef>, before: seq<StepRow>, after: seq<StepRow>, i: nat)
    requires i < |steps| && |before| == |after| == |steps| && RowTells(w, steps[i], i, after[i])
    requires forall j :: 0 <= j < i ==> RowTells(w, steps[j], j, before[j]) && after[j] == before[j]
    ensures forall j :: 0 <= j <= i ==> RowTells(w, steps[j], j, after[j])
  {
  }

  lemma {:induction false} CallsMakeRow(w: World, step: StepDef, i: nat, row: StepRow)
    requires row.stepId == step.stepId && w.renderError(i).None?
    requires var c, ok := Calls(w, i, 1, step.maxAttempts), Answered(w, i, 1, step.maxAttempts);
      && row.attempt == (if c == [] then 1 else |c|)
      && row.status == (if ok then Succeeded else Failed)
      && row.lastError == (if ok then None else LastError(w, i, step.maxAttempts))
    ensures RowTells(w, step, i, row)
  {
    AnswersTell(w, i, 1, step.maxAttempts);
  }

  // One more step was executed.
  lemma {:induction false} StepKeepsShape(before: seq<StepRow>, after: seq<StepRow>, steps: seq<StepDef>, i: nat)
    requires Shaped(before, steps, i, i) && i < |steps| && |after| == |before|
    requires forall j :: 0 <= j < |after| && j != i ==> after[j] == before[j]
    requires after[i].stepId == before[i].stepId
    ensures Shaped(after, steps, i, i + 1)
    ensures after[i].status == Succeeded ==> Shaped(after, steps, i + 1, i + 1)
  {
  }

  // The first i steps have succeeded.
  ghost predicate Reached(w: World, steps: seq<StepDef>, i: nat, rows: seq<StepRow>, trace: seq<Event>)
    requires i <= |steps|
  {
    && Shaped(rows, steps, i, i)
    && Progress(w, steps, 0) == Progress(w, steps, i)
    && trace == Trace(w, steps, i)
    && forall j :: 0 <= j < i ==> RowTells(w, steps[j], j, rows[j])
  }

  // One more step was executed: on to the next, or the run has ended here.
  lemma {:induction false} StepReached(
    w: World, steps: seq<StepDef>, i: nat,
    before: seq<StepRow>, t: seq<Event>, rows: seq<StepRow>, trace: seq<Event>)
    requires i < |steps| && Reached(w, steps, i, before, t) && |rows| == |before|
    requires forall j :: 0 <= j < |rows| && j != i ==> rows[j] == before[j]
    requires rows[i].stepId == steps[i].stepId && RowTells(w, steps[i], i, rows[i])
    requires rows[i].status == (if StepOk(w, steps, i) then Succeeded else Failed)
    requires trace == t + StepTrace(w, steps, i)
    ensures StepOk(w, steps, i) ==> Reached(w, steps, i + 1, rows, trace)
    ensures !StepOk(w, steps, i) ==>
      && Progress(w, steps, 0) == i && trace == RunTrace(w, steps) && Shaped(rows, steps, i, i + 1)
      && forall j :: 0 <= j <= i ==> RowTells(w, steps[j], j, rows[j])
  {
    StepKeepsShape(before, rows, steps, i);
    RowsStillTell(w, steps, before, rows, i);
  }

  /******* Execution *******/

  class Run {
    var status: RunStatus
    var errorSummary: Option<string>
    var rows: seq<StepRow>
    var trace: seq<Event>

    constructor ()
    {
      status, errorSummary, rows, trace := RunRunning, None, [], [];
    }

    method CreateStepRuns(steps: seq<StepDef>)
      modifies this`rows
      ensures Shaped(rows, steps, 0, 0)
    {
      rows := [];
      for i := 0 to |steps|
        invariant |rows| == i
        invariant forall j :: 0 <= j < i ==> rows[j] == StepRow(steps[j].stepId, Pending, 1, None)
      {
        rows := rows + [StepRow(steps[i].stepId, Pending, 1, None)];
      }
    }

    // Calls the agent until it succeeds or the attempts run out.
    method Attempt(w: World, i: nat, maxAttempts: int) returns (ok: bool, lastError: Option<string>)
      requires i < |rows| && w.renderError(i).None?
      modifies this`rows, this`trace
      ensures |rows| == old(|rows|)
      ensures forall j :: 0 <= j < |rows| && j != i ==> rows[j] == old(rows[j])
      ensures rows[i].stepId == old(rows[i].stepId) && rows[i].status == old(rows[i].status)
      ensures rows[i].lastError == old(rows[i].lastError)
      ensures rows[i].attempt == if Calls(w, i, 1, maxAttempts) == [] then old(rows[i].attempt)
                                 else |Calls(w, i, 1, maxAttempts)|
      ensures trace == old(trace) + Calls(w, i, 1, maxAttempts)
      ensures ok == Answered(w, i, 1, maxAttempts)
      ensures !ok ==> lastError == LastError(w, i, maxAttempts)
    {
      ok, lastError := false, None;
      var a := 1;
      while a <= maxAttempts && !ok
        invariant 1 <= a && (!ok ==> a <= maxAttempts + 1 || a == 1)
        invariant |rows| == old(|rows|) && (forall j :: 0 <= j < |rows| && j != i ==> rows[j] == old(rows[j]))
        invariant rows[i].stepId == old(rows[i].stepId) && rows[i].status == old(rows[i].status)
        invariant rows[i].lastError == old(rows[i].lastError)
        invariant |trace| == |old(trace)| + if ok then a else a - 1
        invariant rows[i].attempt == if |trace| == |old(trace)| then old(rows[i].attempt) else |trace| - |old(trace)|
        invariant ok ==> trace == old(trace) + Calls(w, i, 1, maxAttempts)
        invariant !ok ==> old(trace) + Calls(w, i, 1, maxAttempts) == trace + Calls(w, i, a, maxAttempts)
        invariant ok ==> Answered(w, i, 1, maxAttempts)
        invariant !ok ==> Answered(w, i, 1, maxAttempts) == Answered(w, i, a, maxAttempts)
        invariant !ok && a > 1 ==> w.answer(i, a - 1) == Failure(Shown(lastError)) && lastError.Some?
        invariant !ok && a == 1 ==> lastError == None
        decreases maxAttempts - a, !ok
      {
        rows := rows[i := rows[i].(attempt := a)];
        match w.answer(i, a) {
          case Success =>
            ok := true;
            trace := trace + [Called(i, a, true)];
          case Failure(e) =>
            lastError := Some(e);
            trace := trace + [Called(i, a, false)];
            a := a + 1;
        }
      }
    }

    // Runs step i; on failure its row keeps the last error.
    method Execute(w: World, steps: seq<StepDef>, i: nat) returns (ok: bool)
      requires i < |steps| == |rows| && rows[i] == StepRow(steps[i].stepId, Pending, 1, None)
      modifies this`rows, this`trace
      ensures |rows| == old(|rows|)
      ensures forall j :: 0 <= j < |rows| && j != i ==> rows[j] == old(rows[j])
      ensures rows[i].stepId == old(rows[i].stepId)
      ensures ok == StepOk(w, steps, i)
      ensures rows[i].status == if ok then Succeeded else Failed
      ensures RowTells(w, steps[i], i, rows[i])
      ensures trace == old(trace) + StepTrace(w, steps, i)
    {
      rows := rows[i := rows[i].(status := InProgress)];
      trace := trace + [Started(i)];
      var lastError := None;
      var raised := w.renderError(i);
      ok := false;
      if raised.Some? {
        lastError := Some("Templating failed: " + raised.value);
      } else {
        ok, lastError := Attempt(w, i, steps[i].maxAttempts);
      }
      trace := trace + [Ended(i, ok)];
      if ok {
        rows := rows[i := rows[i].(status := Succeeded)];
      } else {
        rows := rows[i := rows[i].(status := Failed, lastError := lastError)];
      }
      if raised.None? {
        CallsMakeRow(w, steps[i], i, rows[i]);
      }
    }

    // The rows read succeeded, ..., then nothing or one failed step and pending ones.
    method Process(w: World, steps: seq<StepDef>)
      modifies this
      ensures var k := Progress(w, steps, 0);
        && Shaped(rows, steps, k, k + 1)
        && (k == |steps| ==> status == RunSucceeded && errorSummary == None)
        && (k < |steps| ==>
              && status == RunFailed && rows[k].status == Failed
              && errorSummary == Some("Step '" + steps[k].stepId + "' failed: " + Shown(rows[k].lastError)))
      ensures forall j :: 0 <= j < |steps| && j <= Progress(w, steps, 0) ==> RowTells(w, steps[j], j, rows[j])
      ensures trace == RunTrace(w, steps)
    {
      status, errorSummary, trace := RunRunning, None, [];
      CreateStepRuns(steps);
      var i := 0;
      while i < |steps|
        invariant 0 <= i <= |steps| && errorSummary == None
        invariant Reached(w, steps, i, rows, trace)
      {
        ghost var before, t := rows, trace;
        var ok := Execute(w, steps, i);
        StepReached(w, steps, i, before, t, rows, trace);
        if !ok {
          errorSummary := Some("Step '" + steps[i].stepId + "' failed: " + Shown(rows[i].lastError));
          status := RunFailed;
          return;
        }
        i := i + 1;
      }
      status := RunSucceeded;
    }
  }

  /******* Properties of every execution *******/

  // One step's calls: numbered from 1, all failures except possibly the last, and no
  // more than the policy allows; a success ends the step well, otherwise every allowed
  // attempt was made.
  lemma {:induction false} CallsLaw(w: World, i: nat, a: nat, maxAttempts: int)
    requires 1 <= a
    ensures var c := Calls(w, i, a, maxAttempts);
      && (forall j :: 0 <= j < |c| ==> c[j] == Called(i, a + j, j == |c| - 1 && Answered(w, i, a, maxAttempts)))
      && |c| <= (if maxAttempts < a then 0 else maxAttempts - a + 1)
      && (Answered(w, i, a, maxAttempts) ==> c != [])
      && (!Answered(w, i, a, maxAttempts) ==> |c| == if maxAttempts < a then 0 else maxAttempts - a + 1)
    decreases maxAttempts - a
  {
    if a <= maxAttempts && w.answer(i, a).Failure? {
      CallsLaw(w, i, a + 1, maxAttempts);
    }
  }

  // The part of a trace that belongs to one step.
  function StepPart(t: seq<Event>, i: nat): seq<Event> {
    if t == [] then []
    else
      var n := |t| - 1;
      StepPart(t[..n], i) + if t[n].step == i then [t[n]] else []
  }

  lemma {:induction false} StepPartAppend(t: seq<Event>, u: seq<Event>, i: nat)
    ensures StepPart(t + u, i) == StepPart(t, i) + StepPart(u, i)
  {
    if u == [] {
      assert t + u == t;
    } else {
      assert (t + u)[..|t + u| - 1] == t + u[..|u| - 1];
      StepPartAppend(t, u[..|u| - 1], i);
    }
  }

  lemma {:induction false} StepPartOfOne(t: seq<Event>, i: nat, j: nat)
    requires forall k :: 0 <= k < |t| ==> t[k].step == j
    ensures StepPart(t, i) == if i == j then t else []
  {
    if t != [] {
      StepPartOfOne(t[..|t| - 1], i, j);
      assert t == t[..|t| - 1] + [t[|t| - 1]];
    }
  }

  lemma {:induction false} StepTraceIsOwn(w: World, steps: seq<StepDef>, i: nat)
    requires i < |steps|
    ensures forall k :: 0 <= k < |StepTrace(w, steps, i)| ==> StepTrace(w, steps, i)[k].step == i
  {
    CallsLaw(w, i, 1, steps[i].maxAttempts);
  }

  // Traces put together from any parts, each of one step.
  function Joined(part: nat -> seq<Event>, n: nat): seq<Event> {
    if n == 0 then [] else Joined(part, n - 1) + part(n - 1)
  }

  lemma {:induction false} PartAfter(t: seq<Event>, u: seq<Event>, i: nat, j: nat)
    requires forall k :: 0 <= k < |u| ==> u[k].step == j
    ensures i == j && StepPart(t, i) == [] ==> StepPart(t + u, i) == u
    ensures i != j ==> StepPart(t + u, i) == StepPart(t, i)
  {
    StepPartAppend(t, u, i);
    StepPartOfOne(u, i, j);
  }

  lemma {:induction false} JoinedPart(part: nat -> seq<Event>, n: nat, i: nat)
    requires forall j, k :: 0 <= j < n && 0 <= k < |part(j)| ==> part(j)[k].step == j
    ensures StepPart(Joined(part, n), i) == if i < n then part(i) else []
  {
    if n > 0 {
      JoinedPart(part, n - 1, i);
      PartAfter(Joined(part, n - 1), part(n - 1), i, n - 1);
    }
  }

  function Parts(w: World, steps: seq<StepDef>): nat -> seq<Event> {
    (i: nat) => if i < |steps| then StepTrace(w, steps, i) else []
  }

  lemma {:induction false} TraceIsJoined(w: World, steps: seq<StepDef>, n: nat)
    requires n <= |steps|
    ensures Trace(w, steps, n) == Joined(Parts(w, steps), n)
  {
    if n > 0 {
      TraceIsJoined(w, steps, n - 1);
      JoinedStep(Parts(w, steps), n, Trace(w, steps, n - 1), StepTrace(w, steps, n - 1));
    }
  }

  lemma {:induction false} JoinedStep(part: nat -> seq<Event>, n: nat, t: seq<Event>, u: seq<Event>)
    requires n > 0 && Joined(part, n - 1) == t && part(n - 1) == u
    ensures Joined(part, n) == t + u
  {
  }

  // Each executed step shows up once, as its own trace; a step that was not executed
  // does not show up at all.
  lemma {:induction false} EachStepOnce(w: World, steps: seq<StepDef>, n: nat, i: nat)
    requires n <= |steps| && i < |steps|
    ensures StepPart(Trace(w, steps, n), i) == if i < n then StepTrace(w, steps, i) else []
  {
    var part := Parts(w, steps);
    forall j | 0 <= j < n ensures forall k :: 0 <= k < |part(j)| ==> part(j)[k].step == j {
      StepTraceIsOwn(w, steps, j);
    }
    TraceIsJoined(w, steps, n);
    JoinedPart(part, n, i);
  }

  // A step's events: started, calls, ended well exactly if the last call succeeded; at
  // most max(0, max_attempts) calls, all but the last failing.
  ghost predicate StepShape(part: seq<Event>, i: nat, maxAttempts: int, ok: bool) {
    var n := |part| - 2;
    && 0 <= n <= (if maxAttempts < 0 then 0 else maxAttempts)
    && part[0] == Started(i)
    && part[n + 1] == Ended(i, ok)
    && forall a :: 1 <= a <= n ==> part[a] == Called(i, a, a == n && ok)
  }

  lemma {:induction false} StepTraceShape(w: World, steps: seq<StepDef>, i: nat)
    requires i < |steps|
    ensures StepShape(StepTrace(w, steps, i), i, steps[i].maxAttempts, StepOk(w, steps, i))
  {
    CallsLaw(w, i, 1, steps[i].maxAttempts);
  }

  lemma {:induction false} RunPart(w: World, steps: seq<StepDef>, i: nat)
    requires i < |steps|
    ensures StepPart(RunTrace(w, steps), i) == if i > Progress(w, steps, 0) then [] else StepTrace(w, steps, i)
  {
    var k := Progress(w, steps, 0);
    EachStepOnce(w, steps, if k < |steps| then k + 1 else k, i);
  }

  // Each step has this shape, or, past the first that failed, no events.
  lemma {:induction false} WorkflowShape(w: World, steps: seq<StepDef>, i: nat)
    requires i < |steps|
    ensures var part, k := StepPart(RunTrace(w, steps), i), Progress(w, steps, 0);
      if i > k then part == [] else StepShape(part, i, steps[i].maxAttempts, i < k)
  {
    RunPart(w, steps, i);
    StepTraceShape(w, steps, i);
  }

  // An event of a run is true to the world: a call's outcome is the agent's answer, and a
  // step ended well exactly if its input could be rendered and some allowed attempt succeeded.
  ghost predicate True(w: World, steps: seq<StepDef>, e: Event) {
    && e.step < |steps|
    && match e
       case Started(i) => true
       case Called(i, a, ok) => 1 <= a <= steps[i].maxAttempts && (ok <==> w.answer(i, a).Success?)
       case Ended(i, ok) =>
         ok <==> w.renderError(i).None? && exists a :: 1 <= a <= steps[i].maxAttempts && w.answer(i, a).Success?
  }

  lemma {:induction false} StepTraceIsTrue(w: World, steps: seq<StepDef>, i: nat, p: nat)
    requires i < |steps| && p < |StepTrace(w, steps, i)|
    ensures True(w, steps, StepTrace(w, steps, i)[p]) && StepTrace(w, steps, i)[p].step == i
  {
    var c := Calls(w, i, 1, steps[i].maxAttempts);
    AnswersTell(w, i, 1, steps[i].maxAttempts);
    assert Answered(w, i, 1, steps[i].maxAttempts) ==> w.answer(i, |c|).Success?;
    var t := StepTrace(w, steps, i);
    if w.renderError(i).None? && 0 < p <= |c| {
      CallTells(w, i, 1, steps[i].maxAttempts, p - 1);
      assert t[p] == c[p - 1];
    }
  }

  // The p-th event is true, and no step before it comes later in the list.
  ghost predicate Fits(w: World, steps: seq<StepDef>, t: seq<Event>, p: nat)
    requires p < |t|
  {
    True(w, steps, t[p]) && forall q :: 0 <= q < p ==> t[q].step <= t[p].step
  }

  // A whole run is true to the world, and takes the steps in their order.
  lemma {:induction false} TraceIsTrue(w: World, steps: seq<StepDef>, n: nat, p: nat)
    requires n <= |steps| && p < |Trace(w, steps, n)|
    ensures Fits(w, steps, Trace(w, steps, n), p)
  {
    var t, u := Trace(w, steps, n - 1), StepTrace(w, steps, n - 1);
    TraceSteps(w, steps, n - 1);
    OwnEvents(w, steps, n - 1);
    if p < |t| {
      TraceIsTrue(w, steps, n - 1, p);
    }
    FitsAfter(w, steps, t, u, n - 1, p);
  }

  lemma {:induction false} OwnEvents(w: World, steps: seq<StepDef>, i: nat)
    requires i < |steps|
    ensures var u := StepTrace(w, steps, i);
      forall q :: 0 <= q < |u| ==> u[q].step == i && True(w, steps, u[q])
  {
    var u := StepTrace(w, steps, i);
    forall q | 0 <= q < |u| ensures u[q].step == i && True(w, steps, u[q]) {
      StepTraceIsTrue(w, steps, i, q);
    }
  }

  lemma {:induction false} FitsAfter(w: World, steps: seq<StepDef>, t: seq<Event>, u: seq<Event>, i: nat, p: nat)
    requires p < |t + u| && forall q :: 0 <= q < |t| ==> t[q].step < i
    requires forall q :: 0 <= q < |u| ==> u[q].step == i && True(w, steps, u[q])
    requires p < |t| ==> Fits(w, steps, t, p)
    ensures Fits(w, steps, t + u, p)
  {
  }

  lemma {:induction false} RunIsTrue(w: World, steps: seq<StepDef>, p: nat)
    requires p < |RunTrace(w, steps)|
    ensures Fits(w, steps, RunTrace(w, steps), p)
  {
    var k := Progress(w, steps, 0);
    TraceIsTrue(w, steps, if k < |steps| then k + 1 else k, p);
  }

  /******* Dependencies *******/

  // Some step that ended well before place p of a trace has the id.
  ghost predicate MetBefore(steps: seq<StepDef>, t: seq<Event>, p: nat, dep: string) {
    exists q :: 0 <= q < p && q < |t| && t[q].Ended? && t[q].ok && t[q].step < |steps| && steps[t[q].step].stepId == dep
  }

  // Whenever a step starts, each of its dependencies has already ended well.
  ghost predicate DependenciesMet(steps: seq<StepDef>, t: seq<Event>) {
    forall p, dep :: 0 <= p < |t| && t[p].Started? && t[p].step < |steps| && dep in steps[t[p].step].dependsOn ==>
      MetBefore(steps, t, p, dep)
  }

  // Every step that can be reached stands after all the steps it depends on. A step with
  // no attempts allowed can be reached but never passed.
  ghost predicate OrderedByDependency(steps: seq<StepDef>) {
    forall i, dep :: 0 <= i < |steps| && (forall j :: 0 <= j < i ==> steps[j].maxAttempts >= 1)
                     && dep in steps[i].dependsOn ==>
      exists j :: 0 <= j < i && steps[j].stepId == dep
  }

  lemma {:induction false} TraceGrows(w: World, steps: seq<StepDef>, i: nat, n: nat)
    requires i <= n <= |steps|
    ensures Trace(w, steps, i) <= Trace(w, steps, n)
    ensures i < n ==> |Trace(w, steps, i)| < |Trace(w, steps, n)|
                      && Trace(w, steps, n)[|Trace(w, steps, i)|] == Started(i)
  {
    if i < n {
      TraceGrows(w, steps, i, n - 1);
    }
  }

  lemma {:induction false} TraceSteps(w: World, steps: seq<StepDef>, n: nat)
    requires n <= |steps|
    ensures forall p :: 0 <= p < |Trace(w, steps, n)| ==> Trace(w, steps, n)[p].step < n
  {
    if n > 0 {
      TraceSteps(w, steps, n - 1);
      StepTraceIsOwn(w, steps, n - 1);
    }
  }

  lemma {:induction false} PassedStepsEnded(w: World, steps: seq<StepDef>, n: nat, j: nat) returns (q: nat)
    requires j < n <= Progress(w, steps, 0)
    ensures q < |Trace(w, steps, n)| && Trace(w, steps, n)[q] == Ended(j, true)
  {
    if j < n - 1 {
      q := PassedStepsEnded(w, steps, n - 1, j);
    } else {
      q := |Trace(w, steps, n)| - 1;
    }
  }

  lemma {:induction false} MetInLonger(steps: seq<StepDef>, t: seq<Event>, u: seq<Event>, p: nat, dep: string)
    requires p <= |t| && MetBefore(steps, t, p, dep)
    ensures MetBefore(steps, t + u, p, dep)
  {
    var q :| 0 <= q < p && t[q].Ended? && t[q].ok && t[q].step < |steps| && steps[t[q].step].stepId == dep;
    assert (t + u)[q] == t[q];
  }

  // When a reached step of an ordered list starts, its dependencies have ended well.
  lemma {:induction false} MetAtStart(w: World, steps: seq<StepDef>, i: nat, dep: string)
    requires OrderedByDependency(steps) && i < |steps| && i <= Progress(w, steps, 0) && dep in steps[i].dependsOn
    ensures MetBefore(steps, Trace(w, steps, i), |Trace(w, steps, i)|, dep)
  {
    forall j | 0 <= j < i ensures steps[j].maxAttempts >= 1 {
      assert StepOk(w, steps, j);
    }
    var j :| 0 <= j < i && steps[j].stepId == dep;
    var q := PassedStepsEnded(w, steps, i, j);
  }

  // Only the first event of a step's trace is a start.
  lemma {:induction false} StartIsFirst(w: World, steps: seq<StepDef>, i: nat, p: nat)
    requires i < |steps| && p < |StepTrace(w, steps, i)| && StepTrace(w, steps, i)[p].Started?
    ensures p == 0 && StepTrace(w, steps, i)[p].step == i
  {
    CallsLaw(w, i, 1, steps[i].maxAttempts);
  }

  lemma {:induction false} StartAfter(w: World, steps: seq<StepDef>, t: seq<Event>, u: seq<Event>, i: nat, p: nat)
    requires i < |steps| && u == StepTrace(w, steps, i) && |t| <= p < |t + u| && (t + u)[p].Started?
    ensures p == |t| && (t + u)[p].step == i
  {
    assert (t + u)[p] == u[p - |t|];
    StartIsFirst(w, steps, i, p - |t|);
  }

  lemma {:induction false} MetAt(
    w: World, steps: seq<StepDef>, t: seq<Event>, u: seq<Event>, i: nat, p: nat, dep: string)
    requires OrderedByDependency(steps) && i < |steps| && i <= Progress(w, steps, 0)
    requires t == Trace(w, steps, i) && DependenciesMet(steps, t)
    requires p < |t + u| && (t + u)[p].Started? && (t + u)[p].step < |steps| && dep in steps[(t + u)[p].step].dependsOn
    requires p >= |t| ==> p == |t| && (t + u)[p].step == i
    ensures MetBefore(steps, t + u, p, dep)
  {
    if p < |t| {
      assert t[p] == (t + u)[p];
      assert MetBefore(steps, t, p, dep);
    } else {
      MetAtStart(w, steps, i, dep);
    }
    MetInLonger(steps, t, u, p, dep);
  }

  lemma {:induction false} OrderedIsEnough(w: World, steps: seq<StepDef>, n: nat)
    requires OrderedByDependency(steps) && n <= |steps| && n <= Progress(w, steps, 0) + 1
    ensures DependenciesMet(steps, Trace(w, steps, n))
  {
    if n > 0 {
      var t, u := Trace(w, steps, n - 1), StepTrace(w, steps, n - 1);
      OrderedIsEnough(w, steps, n - 1);
      var all := t + u;
      forall p, dep | 0 <= p < |all| && all[p].Started? && all[p].step < |steps| && dep in steps[all[p].step].dependsOn
        ensures MetBefore(steps, all, p, dep)
      {
        if p >= |t| {
          StartAfter(w, steps, t, u, n - 1, p);
        }
        MetAt(w, steps, t, u, n - 1, p, dep);
      }
    }
  }

  // A world where nothing ever fails.
  const SMOOTH := World((i: nat) => None, (i: nat, a: nat) => Success)

  lemma {:induction false} SmoothReaches(steps: seq<StepDef>, i: nat)
    requires i < |steps| && forall j :: 0 <= j < i ==> steps[j].maxAttempts >= 1
    ensures Trace(SMOOTH, steps, i) <= RunTrace(SMOOTH, steps)
    ensures |Trace(SMOOTH, steps, i)| < |RunTrace(SMOOTH, steps)|
    ensures RunTrace(SMOOTH, steps)[|Trace(SMOOTH, steps, i)|] == Started(i)
  {
    var k := Progress(SMOOTH, steps, 0);
    if k < i {
      assert StepOk(SMOOTH, steps, k);
      assert false;
    }
    TraceGrows(SMOOTH, steps, i, if k < |steps| then k + 1 else k);
  }

  lemma {:induction false} UnorderedFails(steps: seq<StepDef>, i: nat, dep: string)
    requires i < |steps| && (forall j :: 0 <= j < i ==> steps[j].maxAttempts >= 1)
    requires dep in steps[i].dependsOn && forall j :: 0 <= j < i ==> steps[j].stepId != dep
    ensures !DependenciesMet(steps, RunTrace(SMOOTH, steps))
  {
    SmoothReaches(steps, i);
    TraceSteps(SMOOTH, steps, i);
    var t, p := RunTrace(SMOOTH, steps), |Trace(SMOOTH, steps, i)|;
    forall q | 0 <= q < p && t[q].Ended? && t[q].step < |steps| ensures steps[t[q].step].stepId != dep {
      assert t[q] == Trace(SMOOTH, steps, i)[q];
    }
    assert t[p].Started? && t[p].step == i;
  }

  // The executor ignores `depends_on`; it still meets every dependency, whatever the
  // agents answer, exactly when the list is ordered by dependency.
  lemma {:induction false} DependenciesMetIffOrdered(steps: seq<StepDef>)
    ensures (forall w: World :: DependenciesMet(steps, RunTrace(w, steps))) <==> OrderedByDependency(steps)
  {
    if OrderedByDependency(steps) {
      forall w: World ensures DependenciesMet(steps, RunTrace(w, steps)) {
        var k := Progress(w, steps, 0);
        OrderedIsEnough(w, steps, if k < |steps| then k + 1 else k);
      }
    } else {
      var i, dep :| 0 <= i < |steps| && (forall j :: 0 <= j < i ==> steps[j].maxAttempts >= 1)
        && dep in steps[i].dependsOn && !exists j :: 0 <= j < i && steps[j].stepId == dep;
      UnorderedFails(steps, i, dep);
    }
  }
}
