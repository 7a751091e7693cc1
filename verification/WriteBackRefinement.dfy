/** The dispatch against a simple reference: the same writes and tasks applied
    one at a time to the tables, every lookup seeing every row and every row
    fitting. The two agree except on one family of batches, given exactly by
    `Lost`, which the real dispatch loses as a whole. */
module WriteBackRefinement {
  import opened Wrappers
  import opened SystemOfRecord

  datatype RefStep = Accepted(db: Db) | Refused(db: Db)

  function RefWrite(env: Env, db: Db, w: ProposedWrite): RefStep {
    if !ValidWrite(w) then Refused(db)
    else
      match CheckIdempotency(db.keys, w.key, env.hash(w))
      case Conflict => Refused(db)
      case AlreadyApplied => Accepted(db)
      case Fresh =>
        var (entities, event) := Upserted(db.entities, w);
        Accepted(Db(entities, db.events + [event], db.keys + [KeyRow(w.key, EntityWrite, env.hash(w))], db.tasks))
  }

  function RefWrites(env: Env, db: Db, ws: seq<ProposedWrite>): RefStep
    decreases |ws|
  {
    if ws == [] then Accepted(db)
    else
      match RefWrite(env, db, ws[0])
      case Accepted(d) => RefWrites(env, d, ws[1..])
      case Refused(d) => Refused(d)
  }

  function RefTask(db: Db, t: ProposedTask): Db {
    if FindKey(db.keys, t.key).Some? then db
    else db.(keys := db.keys + [KeyRow(t.key, TaskCreation, "")], tasks := db.tasks + [t])
  }

  function RefTasks(db: Db, ts: seq<ProposedTask>): Db
    decreases |ts|
  {
    if ts == [] then db else RefTasks(RefTask(db, ts[0]), ts[1..])
  }

  // The tasks, after the writes were accepted.
  function RefThenTasks(db: Db, r: Response): RefStep {
    if r.StopsAtWrites() || r.tasks == [] then Accepted(db)
    else if !r.context.tasksAllowed then Refused(db)
    else Accepted(RefTasks(db, r.ReachedTasks()))
  }

  function RefDispatch(env: Env, db: Db, r: Response): Outcome {
    if r.context.fault.CallRaises? || !r.ok then Outcome(db, Failed)
    else if r.writes == [] then Outcome(db, Succeeded)
    else
      match RefWrites(env, db, r.ReachedWrites())
      case Refused(d) => Outcome(d, Failed)
      case Accepted(d) =>
        var step := RefThenTasks(d, r);
        Outcome(step.db, if step.Refused? || r.context.fault.CodeRaises? then Failed else Succeeded)
  }

  /******* The batches the session loses *******/

  // The key of the last write that really was applied, if any.
  function LastKey(env: Env, db: Db, last: Option<string>, w: ProposedWrite): Option<string> {
    if CheckIdempotency(db.keys, w.key, env.hash(w)) == Fresh then Some(w.key) else last
  }

  // Some reached, valid write repeats the key of the last applied one, or is new and does
  // not fit.
  predicate WritesLost(env: Env, db: Db, last: Option<string>, ws: seq<ProposedWrite>)
    decreases |ws|
  {
    && ws != []
    && ValidWrite(ws[0])
    && (|| last == Some(ws[0].key)
        || (CheckIdempotency(db.keys, ws[0].key, env.hash(ws[0])) == Fresh && !env.writeFits(ws[0]))
        || match RefWrite(env, db, ws[0])
           case Refused(_) => false
           case Accepted(d) => WritesLost(env, d, LastKey(env, db, last, ws[0]), ws[1..]))
  }

  function LastKeys(env: Env, db: Db, last: Option<string>, ws: seq<ProposedWrite>): Option<string>
    decreases |ws|
  {
    if ws == [] then last
    else
      match RefWrite(env, db, ws[0])
      case Refused(_) => last
      case Accepted(d) => LastKeys(env, d, LastKey(env, db, last, ws[0]), ws[1..])
  }

  // The first task that is not already created repeats that key, or some task that is not
  // already created cannot be stored.
  predicate TasksLost(env: Env, versions: set<int>, db: Db, last: Option<string>, ts: seq<ProposedTask>)
    decreases |ts|
  {
    && ts != []
    && (|| last == Some(ts[0].key)
        || (if FindKey(db.keys, ts[0].key).Some? then TasksLost(env, versions, db, last, ts[1..])
            else !Storable(env, versions, ts[0]) || TasksLost(env, versions, RefTask(db, ts[0]), None, ts[1..])))
  }

  // What is lost after the writes were accepted: the tasks, or else the job summary.
  predicate LaterLost(env: Env, db: Db, last: Option<string>, r: Response) {
    var tasked := !r.StopsAtWrites() && r.tasks != [];
    && (tasked ==> r.context.tasksAllowed)
    && (|| (tasked && TasksLost(env, r.context.versions, db, last, r.ReachedTasks()))
        || (!r.context.fault.CodeRaises? && !r.context.summaryFits))
  }

  predicate Lost(env: Env, db: Db, r: Response) {
    && r.ok
    && !r.context.fault.CallRaises?
    && r.writes != []
    && (|| WritesLost(env, db, None, r.ReachedWrites())
        || match RefWrites(env, db, r.ReachedWrites())
           case Refused(_) => false
           case Accepted(d) => LaterLost(env, d, LastKeys(env, db, None, r.ReachedWrites()), r))
  }

  /******* Refinement *******/

  lemma {:induction false} FindKeyAppend(keys: seq<KeyRow>, row: KeyRow, key: string)
    ensures FindKey(keys + [row], key)
         == if FindKey(keys, key).Some? then FindKey(keys, key)
            else if row.key == key then Some(row) else None
  {
    if keys != [] {
      assert (keys + [row])[1..] == keys[1..] + [row];
      FindKeyAppend(keys[1..], row, key);
    } else {
      assert ([row])[1..] == [];
    }
  }

  // A session between two worker calls: at most one key row is still unflushed.
  ghost predicate Tracks(s: Session, last: Option<string>) {
    && UniqueKeys(Full(s).keys)
    && |s.keys| <= 1
    && last == (if s.keys == [] then None else Some(s.keys[0].key))
    && (s.keys == [] ==> s.events == [])
  }

  lemma {:induction false} Lookups(s: Session, last: Option<string>, key: string)
    requires Tracks(s, last) && last != Some(key)
    ensures FindKey(s.db.keys, key) == FindKey(Full(s).keys, key)
  {
    if s.keys != [] {
      FindKeyAppend(s.db.keys, s.keys[0], key);
      assert s.keys == [s.keys[0]];
    } else {
      assert Full(s).keys == s.db.keys;
    }
  }

  // The hidden row: the lookup misses it, and the repeated key is in the way of
  // every later flush.
  lemma {:induction false} HiddenRow(s: Session, last: Option<string>)
    requires Tracks(s, last) && last.Some?
    ensures FindKey(s.db.keys, last.value).None?
  {
    var n := |s.db.keys|;
    forall i | 0 <= i < n ensures s.db.keys[i].key != last.value {
      assert Full(s).keys[i].key != Full(s).keys[n].key;
    }
  }

  lemma {:induction false} AppendUnique(keys: seq<KeyRow>, row: KeyRow)
    requires UniqueKeys(keys)
    ensures UniqueKeys(keys + [row]) <==> FindKey(keys, row.key).None?
  {
    match FindKey(keys, row.key)
    case None =>
    case Some(r) =>
      var i :| 0 <= i < |keys| && keys[i] == r;
      assert (keys + [row])[i].key == (keys + [row])[|keys|].key;
  }

  lemma {:induction false} WriteStep(env: Env, s: Session, last: Option<string>, w: ProposedWrite)
    requires Tracks(s, last) && (ValidWrite(w) ==> last != Some(w.key))
    requires ValidWrite(w) && CheckIdempotency(Full(s).keys, w.key, env.hash(w)) == Fresh ==> env.writeFits(w)
    ensures match RefWrite(env, Full(s), w)
      case Refused(d) => ApplyWrite(env, s, w) == Rejected(s) && d == Full(s)
      case Accepted(d) =>
        var step := ApplyWrite(env, s, w);
        && step.Done? && Full(step.s) == d
        && Tracks(step.s, LastKey(env, Full(s), last, w))
  {
    if ValidWrite(w) {
      Lookups(s, last, w.key);
      AppendUnique(Full(s).keys, KeyRow(w.key, EntityWrite, env.hash(w)));
    }
  }

  // Once two rows with one key are in the session nothing can be committed.
  lemma {:induction false} DoomedWrites(env: Env, s: Session, ws: seq<ProposedWrite>)
    requires !UniqueKeys(Full(s).keys)
    ensures var step := ApplyWrites(env, s, ws); step.Broken? || !UniqueKeys(Full(step.s).keys)
    decreases |ws|
  {
    if ws != [] && ApplyWrite(env, s, ws[0]).Done? {
      DoomedWrites(env, s, ws[1..]);
    }
  }

  lemma {:induction false} Superkeys(keys: seq<KeyRow>, row: KeyRow)
    requires !UniqueKeys(keys)
    ensures !UniqueKeys(keys + [row])
  {
    var i, j :| 0 <= i < j < |keys| && keys[i].key == keys[j].key;
    assert (keys + [row])[i].key == (keys + [row])[j].key;
  }

  lemma {:induction false} DoomedTasks(env: Env, versions: set<int>, s: Session, ts: seq<ProposedTask>)
    requires !UniqueKeys(Full(s).keys)
    ensures var step := SpawnTasks(env, versions, s, ts); step.Broken? || !UniqueKeys(Full(step.s).keys)
    decreases |ts|
  {
    if ts != [] {
      var row := KeyRow(ts[0].key, TaskCreation, "");
      Superkeys(Full(s).keys, row);
      assert s.db.keys + (s.keys + [row]) == Full(s).keys + [row];
      if SpawnTask(env, versions, s, ts[0]).Done? {
        DoomedTasks(env, versions, s, ts[1..]);
      }
    }
  }

  lemma {:induction false} WritesRefine(env: Env, s: Session, last: Option<string>, ws: seq<ProposedWrite>)
    requires Tracks(s, last)
    ensures var step := ApplyWrites(env, s, ws);
      if WritesLost(env, Full(s), last, ws) then
        step.Broken? || !UniqueKeys(Full(step.s).keys)
      else
        match RefWrites(env, Full(s), ws)
        case Refused(d) => step.Rejected? && Full(step.s) == d && UniqueKeys(d.keys)
        case Accepted(d) => step.Done? && Full(step.s) == d
                            && Tracks(step.s, LastKeys(env, Full(s), last, ws))
    decreases |ws|
  {
    if ws == [] {
    } else if ValidWrite(ws[0]) && last == Some(ws[0].key) {
      HiddenRow(s, last);
      var step := ApplyWrite(env, s, ws[0]);
      if step.Done? {
        var n := |Full(s).keys|;
        assert Full(step.s).keys[n - 1].key == Full(step.s).keys[n].key;
        DoomedWrites(env, step.s, ws[1..]);
      }
    } else if ValidWrite(ws[0]) && CheckIdempotency(Full(s).keys, ws[0].key, env.hash(ws[0])) == Fresh
              && !env.writeFits(ws[0]) {
      Lookups(s, last, ws[0].key);
    } else {
      WriteStep(env, s, last, ws[0]);
      if RefWrite(env, Full(s), ws[0]).Accepted? {
        WritesRefine(env, ApplyWrite(env, s, ws[0]).s, LastKey(env, Full(s), last, ws[0]), ws[1..]);
      }
    }
  }

  lemma {:induction false} TasksRefine(
    env: Env, versions: set<int>, s: Session, last: Option<string>, ts: seq<ProposedTask>)
    requires Tracks(s, last)
    ensures var step := SpawnTasks(env, versions, s, ts);
      if TasksLost(env, versions, Full(s), last, ts) then step.Broken?
      else step.Done? && Full(step.s) == RefTasks(Full(s), ts) && UniqueKeys(Full(step.s).keys)
    decreases |ts|
  {
    if ts != [] && last != Some(ts[0].key) {
      TaskStep(env, versions, s, last, ts[0]);
      var step := SpawnTask(env, versions, s, ts[0]);
      if step.Done? {
        TasksRefine(env, versions, step.s, if FindKey(Full(s).keys, ts[0].key).Some? then last else None, ts[1..]);
      }
    } else if ts != [] {
      RepeatedTask(env, versions, s, last, ts[0]);
    }
  }

  lemma {:induction false} TaskStep(env: Env, versions: set<int>, s: Session, last: Option<string>, t: ProposedTask)
    requires Tracks(s, last) && last != Some(t.key)
    ensures var step := SpawnTask(env, versions, s, t);
      var known := FindKey(Full(s).keys, t.key).Some?;
      if known || Storable(env, versions, t) then
        step.Done? && Full(step.s) == RefTask(Full(s), t) && Tracks(step.s, if known then last else None)
      else step.Broken?
  {
    var row := KeyRow(t.key, TaskCreation, "");
    assert s.db.keys + (s.keys + [row]) == Full(s).keys + [row];
    AppendUnique(Full(s).keys, row);
    Lookups(s, last, t.key);
  }

  // The hidden row again: the lookup misses it, and the flush fails at once.
  lemma {:induction false} RepeatedTask(env: Env, versions: set<int>, s: Session, last: Option<string>, t: ProposedTask)
    requires Tracks(s, last) && last == Some(t.key)
    ensures SpawnTask(env, versions, s, t).Broken?
  {
    var row := KeyRow(t.key, TaskCreation, "");
    var all := Full(s).keys;
    assert s.db.keys + (s.keys + [row]) == all + [row];
    AppendUnique(all, row);
    HiddenRow(s, last);
    assert all[|all| - 1].key == t.key;
    assert FindKey(all, t.key).Some?;
  }

  lemma {:induction false} StorableNeverLost(env: Env, versions: set<int>, db: Db, ts: seq<ProposedTask>)
    requires forall t :: t in ts && FindKey(db.keys, t.key).None? ==> Storable(env, versions, t)
    ensures !TasksLost(env, versions, db, None, ts)
    decreases |ts|
  {
    if ts != [] {
      var d := RefTask(db, ts[0]);
      assert ts[0] in ts;
      forall t | t in ts[1..] && FindKey(d.keys, t.key).None?
        ensures Storable(env, versions, t)
      {
        FindKeyAppend(db.keys, KeyRow(ts[0].key, TaskCreation, ""), t.key);
      }
      StorableNeverLost(env, versions, d, ts[1..]);
    }
  }

  // What the whole handling comes to, in a session that starts with the committed tables.
  lemma {:induction false} HandledRefines(env: Env, db: Db, r: Response)
    requires UniqueKeys(db.keys) && r.ok && !r.context.fault.CallRaises? && r.writes != []
    ensures Committed(db, Handled(env, Session(db, [], []), r))
         == if Lost(env, db, r) then Outcome(db, Running) else RefDispatch(env, db, r)
  {
    var s, ws := Session(db, [], []), r.ReachedWrites();
    assert Full(s) == db;
    WritesRefine(env, s, None, ws);
    var step := ApplyWrites(env, s, ws);
    if WritesLost(env, db, None, ws) {
      LostStaysLost(env, db, step, r);
    } else if step.Done? {
      LaterRefines(env, db, step.s, LastKeys(env, db, None, ws), r);
    }
  }

  lemma {:induction false} LostStaysLost(env: Env, db: Db, step: Step, r: Response)
    requires step.Broken? || !UniqueKeys(Full(step.s).keys)
    ensures Committed(db, ThenSummary(ThenTasks(env, step, r), r)) == Outcome(db, Running)
  {
    if step.Done? {
      DoomedTasks(env, r.context.versions, step.s, r.ReachedTasks());
    }
  }

  // From the accepted writes on.
  lemma {:induction false} LaterRefines(env: Env, db: Db, s: Session, last: Option<string>, r: Response)
    requires Tracks(s, last)
    ensures Committed(db, ThenSummary(ThenTasks(env, Done(s), r), r))
         == if LaterLost(env, Full(s), last, r) then Outcome(db, Running)
            else
              var step := RefThenTasks(Full(s), r);
              Outcome(step.db, if step.Refused? || r.context.fault.CodeRaises? then Failed else Succeeded)
  {
    TasksRefine(env, r.context.versions, s, last, r.ReachedTasks());
  }

  // A dispatch is the reference dispatch, unless the batch is lost; then it commits nothing
  // and the task keeps the status `running`.
  lemma {:induction false} DispatchRefines(env: Env, db: Db, r: Response)
    requires UniqueKeys(db.keys)
    ensures Dispatched(env, db, r)
         == if Lost(env, db, r) then Outcome(db, Running) else RefDispatch(env, db, r)
  {
    if r.ok && !r.context.fault.CallRaises? && r.writes != [] {
      HandledRefines(env, db, r);
    }
  }

  // The task is left `running` exactly for the lost batches.
  lemma {:induction false} LeftRunningIff(env: Env, db: Db, r: Response)
    requires UniqueKeys(db.keys)
    ensures Dispatched(env, db, r).status == Running <==> Lost(env, db, r)
  {
    DispatchRefines(env, db, r);
  }

  function WriteKeys(ws: seq<ProposedWrite>): seq<string> {
    seq(|ws|, i requires 0 <= i < |ws| => ws[i].key)
  }

  function TaskKeys(ts: seq<ProposedTask>): seq<string> {
    seq(|ts|, i requires 0 <= i < |ts| => ts[i].key)
  }

  predicate Distinct(keys: seq<string>) {
    forall i, j :: 0 <= i < j < |keys| ==> keys[i] != keys[j]
  }

  lemma {:induction false} WriteKeysTail(ws: seq<ProposedWrite>)
    requires ws != []
    ensures forall k :: k in WriteKeys(ws) <==> k == ws[0].key || k in WriteKeys(ws[1..])
    ensures Distinct(WriteKeys(ws)) ==> Distinct(WriteKeys(ws[1..])) && ws[0].key !in WriteKeys(ws[1..])
  {
    DistinctTail(ws[0].key, WriteKeys(ws[1..]));
    assert WriteKeys(ws) == [ws[0].key] + WriteKeys(ws[1..]);
  }

  lemma {:induction false} DistinctTail(k: string, keys: seq<string>)
    ensures Distinct([k] + keys) ==> Distinct(keys) && k !in keys
  {
    var all := [k] + keys;
    assert all[0] == k && forall i :: 0 <= i < |keys| ==> keys[i] == all[i + 1];
  }

  lemma {:induction false} DistinctWrites(env: Env, db: Db, last: Option<string>, ws: seq<ProposedWrite>)
    requires Distinct(WriteKeys(ws)) && (last.Some? ==> last.value !in WriteKeys(ws))
    requires forall w :: w in ws ==> env.writeFits(w)
    ensures !WritesLost(env, db, last, ws)
    ensures var k := LastKeys(env, db, last, ws); k == last || (k.Some? && k.value in WriteKeys(ws))
    decreases |ws|
  {
    if ws != [] {
      WriteKeysTail(ws);
      assert ws[0] in ws;
      if RefWrite(env, db, ws[0]).Accepted? {
        DistinctWrites(env, RefWrite(env, db, ws[0]).db, LastKey(env, db, last, ws[0]), ws[1..]);
      }
    }
  }

  lemma {:induction false} DistinctTasks(
    env: Env, versions: set<int>, db: Db, last: Option<string>, ts: seq<ProposedTask>)
    requires last.Some? ==> last.value !in TaskKeys(ts)
    requires forall t :: t in ts ==> Storable(env, versions, t)
    ensures !TasksLost(env, versions, db, last, ts)
    decreases |ts|
  {
    if ts != [] {
      assert TaskKeys(ts) == [ts[0].key] + TaskKeys(ts[1..]);
      assert ts[0] in ts;
      if FindKey(db.keys, ts[0].key).Some? {
        DistinctTasks(env, versions, db, last, ts[1..]);
      } else {
        DistinctTasks(env, versions, RefTask(db, ts[0]), None, ts[1..]);
      }
    }
  }

  // Every row of the response can be stored.
  predicate Fits(env: Env, r: Response) {
    && (forall w :: w in r.writes ==> env.writeFits(w))
    && (forall t :: t in r.tasks ==> Storable(env, r.context.versions, t))
    && r.context.summaryFits
  }

  // A batch that fits and whose keys are pairwise distinct is never lost, whatever is in the
  // tables and whatever else goes wrong.
  lemma {:induction false} DistinctKeysNeverLost(env: Env, db: Db, r: Response)
    requires Distinct(WriteKeys(r.writes) + TaskKeys(r.tasks)) && Fits(env, r)
    ensures !Lost(env, db, r)
  {
    var ws, ts := r.ReachedWrites(), r.ReachedTasks();
    DistinctReached(r);
    DistinctWrites(env, db, None, ws);
    if RefWrites(env, db, ws).Accepted? {
      var d, last := RefWrites(env, db, ws).db, LastKeys(env, db, None, ws);
      DistinctTasks(env, r.context.versions, d, last, ts);
    }
  }

  lemma {:induction false} DistinctReached(r: Response)
    requires Distinct(WriteKeys(r.writes) + TaskKeys(r.tasks))
    ensures var ks, ts := WriteKeys(r.ReachedWrites()), TaskKeys(r.ReachedTasks());
      Distinct(ks) && forall k :: k in ks ==> k !in ts
  {
    var ks, ts := WriteKeys(r.writes), TaskKeys(r.tasks);
    var some, others := WriteKeys(r.ReachedWrites()), TaskKeys(r.ReachedTasks());
    forall i, j | 0 <= i < j < |some| ensures some[i] != some[j] {
      assert (ks + ts)[i] != (ks + ts)[j];
    }
    forall i, j | 0 <= i < |some| && 0 <= j < |others| ensures some[i] != others[j] {
      assert (ks + ts)[i] != (ks + ts)[|ks| + j];
    }
  }

  // A task whose persona version does not exist loses its batch, even though every key is
  // new and distinct.
  lemma {:induction false} MissingVersionLosesBatch(
    env: Env, db: Db, w: ProposedWrite, t: ProposedTask, context: Context)
    requires UniqueKeys(db.keys) && ValidWrite(w) && w.key != t.key
    requires FindKey(db.keys, w.key).None? && FindKey(db.keys, t.key).None?
    requires context.tasksAllowed && context.fault == NoFault
    requires t.personaVersion.Some? && t.personaVersion.value !in context.versions
    ensures Dispatched(env, db, Response(true, [w], [t], context)) == Outcome(db, Running)
  {
    var r := Response(true, [w], [t], context);
    FindKeyAppend(db.keys, KeyRow(w.key, EntityWrite, env.hash(w)), t.key);
    var d := RefWrite(env, db, w).db;
    assert RefWrites(env, db, [w]) == RefWrites(env, d, []);
    assert LastKeys(env, db, None, [w]) == LastKeys(env, d, Some(w.key), []);
    assert TasksLost(env, context.versions, d, Some(w.key), [t]);
    DispatchRefines(env, db, r);
  }

  // Repeating a write at once loses the batch; repeating it after another
  // applied write skips the repeat, as the reference does both times.
  lemma {:induction false} RepeatsAdjacentAndApart(env: Env, db: Db, w: ProposedWrite, v: ProposedWrite, c: Context)
    requires UniqueKeys(db.keys) && ValidWrite(w) && ValidWrite(v) && w.key != v.key
    requires FindKey(db.keys, w.key).None? && FindKey(db.keys, v.key).None?
    requires env.writeFits(w) && env.writeFits(v) && c.summaryFits && c.fault == NoFault
    ensures Dispatched(env, db, Response(true, [w, w], [], c)) == Outcome(db, Running)
    ensures Dispatched(env, db, Response(true, [w, v, w], [], c))
         == Dispatched(env, db, Response(true, [w, v], [], c))
    ensures Dispatched(env, db, Response(true, [w, v], [], c)).status == Succeeded
  {
    var row := KeyRow(w.key, EntityWrite, env.hash(w));
    FindKeyAppend(db.keys, row, w.key);
    FindKeyAppend(db.keys, row, v.key);
    FindKeyAppend(db.keys + [row], KeyRow(v.key, EntityWrite, env.hash(v)), w.key);
    var dw := RefWrite(env, db, w).db;
    var dv := RefWrite(env, dw, v).db;
    assert [w, w][1..] == [w] && [w, v][1..] == [v] && [w, v, w][1..] == [v, w] && [v, w][1..] == [w];
    assert [w][1..] == [] && [v][1..] == [];
    assert RefWrites(env, db, [w, v]) == RefWrites(env, dw, [v]) == RefWrites(env, dv, []);
    assert RefWrites(env, db, [w, v, w]) == RefWrites(env, dw, [v, w]) == RefWrites(env, dv, [w]);
    assert RefWrite(env, dv, w) == Accepted(dv);
    assert WritesLost(env, db, None, [w, w]) by {
      assert WritesLost(env, dw, Some(w.key), [w]);
    }
    assert !WritesLost(env, dv, Some(v.key), [w]);
    assert !WritesLost(env, dw, Some(w.key), [v, w]);
    assert !WritesLost(env, dw, Some(w.key), [v]);
    DispatchRefines(env, db, Response(true, [w, w], [], c));
    DispatchRefines(env, db, Response(true, [w, v], [], c));
    DispatchRefines(env, db, Response(true, [w, v, w], [], c));
  }
}
