/** What a dispatch does to the tables, row by row and key by key. */
module WriteBackEffects {
  import opened Wrappers
  import opened MergePatch
  import opened SystemOfRecord
  import opened WriteBackRefinement

  /******* What one write and one task come to, in full *******/

  // No code outside the database raises, and the summary can be stored.
  predicate Calm(c: Context) {
    c.fault == NoFault && c.summaryFits
  }

  lemma {:induction false} WriteAlone(env: Env, db: Db, w: ProposedWrite, c: Context)
    requires UniqueKeys(db.keys) && env.writeFits(w) && Calm(c)
    ensures var step := RefWrite(env, db, w);
      Dispatched(env, db, Response(true, [w], [], c)) == Outcome(step.db, if step.Accepted? then Succeeded else Failed)
  {
    var r := Response(true, [w], [], c);
    assert WriteKeys(r.writes) + TaskKeys(r.tasks) == [w.key];
    DistinctKeysNeverLost(env, db, r);
    DispatchRefines(env, db, r);
    var step := RefWrite(env, db, w);
    assert [w][1..] == [];
    assert step.Accepted? ==> RefWrites(env, db, [w]) == RefWrites(env, step.db, []);
  }

  // The verdict on a key, in terms of the rows.
  lemma {:induction false} VerdictMeans(keys: seq<KeyRow>, key: string, hash: string)
    requires UniqueKeys(keys)
    ensures var v := CheckIdempotency(keys, key, hash);
      && (v == Fresh <==> forall row :: row in keys ==> row.key != key)
      && (v == AlreadyApplied <==> exists row :: row in keys && row.key == key && row.hash == hash)
      && (v == Conflict <==> exists row :: row in keys && row.key == key && row.hash != hash)
  {
    forall a, b | a in keys && b in keys && a.key == b.key ensures a == b {
      var i :| 0 <= i < |keys| && keys[i] == a;
      var j :| 0 <= j < |keys| && keys[j] == b;
    }
  }

  // A new key's write succeeds exactly if it is a DNS record with its four fields; any other
  // changes nothing.
  lemma {:induction false} NewWriteSucceedsIff(env: Env, db: Db, w: ProposedWrite, c: Context)
    requires UniqueKeys(db.keys) && env.writeFits(w) && Calm(c)
    requires forall row :: row in db.keys ==> row.key != w.key
    ensures var d := Dispatched(env, db, Response(true, [w], [], c));
      && (d.status == Succeeded <==>
            w.kind == "dns_record" && {"name", "record_type", "value", "ttl"} <= w.patch.Keys)
      && (d.status != Succeeded ==> d == Outcome(db, Failed))
  {
    WriteAlone(env, db, w, c);
    VerdictMeans(db.keys, w.key, env.hash(w));
    assert {"name", "record_type", "value", "ttl"} <= w.patch.Keys <==>
      "name" in w.patch && "record_type" in w.patch && "value" in w.patch && "ttl" in w.patch;
  }

  // What such a write does to the entity with its reference: a patched key is set, or
  // removed by null, any other stays; the event holds both documents, the old one unless it
  // is empty; nothing else changes.
  lemma {:induction false} UpdateInFull(env: Env, db: Db, w: ProposedWrite, c: Context, i: nat)
    requires UniqueKeys(db.keys) && env.writeFits(w) && Calm(c) && ValidWrite(w)
    requires forall row :: row in db.keys ==> row.key != w.key
    requires i < |db.entities| && w.ref.Some? && w.ref.value != ""
    requires db.entities[i].kind == w.kind && db.entities[i].ref == w.ref
    requires forall j :: 0 <= j < i ==> !(db.entities[j].kind == w.kind && db.entities[j].ref == w.ref)
    ensures var d := Dispatched(env, db, Response(true, [w], [], c)).db;
      && |d.entities| == |db.entities|
      && var before, after := db.entities[i].data, d.entities[i].data;
      && d.entities == db.entities[i := Entity(w.kind, w.ref, after, db.entities[i].version + 1)]
      && (forall k :: k in after <==> if k in w.patch then !w.patch[k].Null? else k in before)
      && (forall k :: k in after ==> after[k] == if k in w.patch then w.patch[k] else before[k])
      && d.events == db.events + [Event(i, Update, if |before| == 0 then None else Some(before), after, w.patch, w.key)]
      && d.keys == db.keys + [KeyRow(w.key, EntityWrite, env.hash(w))]
      && d.tasks == db.tasks
  {
    WriteAlone(env, db, w, c);
    VerdictMeans(db.keys, w.key, env.hash(w));
    FirstMatch(db.entities, w, i);
  }

  lemma {:induction false} FirstMatch(entities: seq<Entity>, w: ProposedWrite, i: nat)
    requires i < |entities| && Matches(entities[i], w) && forall j :: 0 <= j < i ==> !Matches(entities[j], w)
    ensures FindEntity(entities, w) == Some(i)
  {
    var n := |entities| - 1;
    if i < n {
      FirstMatch(entities[..n], w, i);
    } else {
      assert FindEntity(entities[..n], w).None?;
    }
  }

  // And without such an entity, or without a reference, it makes a new one.
  lemma {:induction false} CreateInFull(env: Env, db: Db, w: ProposedWrite, c: Context)
    requires UniqueKeys(db.keys) && env.writeFits(w) && Calm(c) && ValidWrite(w)
    requires forall row :: row in db.keys ==> row.key != w.key
    requires w.ref in {None, Some("")} || forall e :: e in db.entities ==> !(e.kind == w.kind && e.ref == w.ref)
    ensures var d := Dispatched(env, db, Response(true, [w], [], c)).db;
      && d.entities == db.entities + [Entity(w.kind, w.ref, w.patch, 1)]
      && d.events == db.events + [Event(|db.entities|, Create, None, w.patch, w.patch, w.key)]
      && d.keys == db.keys + [KeyRow(w.key, EntityWrite, env.hash(w))]
      && d.tasks == db.tasks
  {
    WriteAlone(env, db, w, c);
    VerdictMeans(db.keys, w.key, env.hash(w));
    assert FindEntity(db.entities, w).None?;
  }

  // A new task after a new write: it is created as proposed if tasks are allowed and its
  // persona version, if any, exists; refused, with the write kept, if they are not; and
  // otherwise it takes the write with it.
  lemma {:induction false} TaskInFull(env: Env, db: Db, w: ProposedWrite, t: ProposedTask, c: Context)
    requires UniqueKeys(db.keys) && env.writeFits(w) && env.taskFits(t) && Calm(c) && ValidWrite(w)
    requires w.key != t.key && forall row :: row in db.keys ==> row.key != w.key && row.key != t.key
    ensures var alone := Dispatched(env, db, Response(true, [w], [], c)).db;
      Dispatched(env, db, Response(true, [w], [t], c))
      == if !c.tasksAllowed then Outcome(alone, Failed)
         else if t.personaVersion.Some? && t.personaVersion.value !in c.versions then Outcome(db, Running)
         else Outcome(Db(alone.entities, alone.events, alone.keys + [KeyRow(t.key, TaskCreation, "")], db.tasks + [t]),
                      Succeeded)
  {
    var r := Response(true, [w], [t], c);
    WriteAlone(env, db, w, c);
    VerdictMeans(db.keys, w.key, env.hash(w));
    var d := RefWrite(env, db, w).db;
    FindKeyAppend(db.keys, KeyRow(w.key, EntityWrite, env.hash(w)), t.key);
    assert FindKey(db.keys, t.key).None?;
    OneWrite(env, db, w);
    OneTask(env, c.versions, d, Some(w.key), t);
    DispatchRefines(env, db, r);
  }

  lemma {:induction false} OneWrite(env: Env, db: Db, w: ProposedWrite)
    requires RefWrite(env, db, w).Accepted? && CheckIdempotency(db.keys, w.key, env.hash(w)) == Fresh
    requires ValidWrite(w) && env.writeFits(w)
    ensures RefWrites(env, db, [w]) == RefWrite(env, db, w)
    ensures !WritesLost(env, db, None, [w]) && LastKeys(env, db, None, [w]) == Some(w.key)
  {
    var d := RefWrite(env, db, w).db;
    assert [w][1..] == [];
    assert RefWrites(env, d, []) == Accepted(d) && LastKeys(env, d, Some(w.key), []) == Some(w.key);
    assert !WritesLost(env, d, Some(w.key), []);
  }

  lemma {:induction false} OneTask(env: Env, versions: set<int>, db: Db, last: Option<string>, t: ProposedTask)
    requires FindKey(db.keys, t.key).None? && last != Some(t.key)
    ensures RefTasks(db, [t]) == RefTask(db, t)
    ensures TasksLost(env, versions, db, last, [t]) <==> !Storable(env, versions, t)
  {
    assert [t][1..] == [];
    assert RefTasks(RefTask(db, t), []) == RefTask(db, t);
    assert !TasksLost(env, versions, RefTask(db, t), None, []);
  }

  /******* What stands in the way of a whole response *******/

  // A failed call, or an answer that is not ok, changes nothing; nor does a response without
  // writes, whose tasks are not even looked at.
  lemma {:induction false} NothingToApply(env: Env, db: Db, r: Response)
    ensures !r.ok || r.context.fault == CallRaises ==> Dispatched(env, db, r) == Outcome(db, Failed)
    ensures r.ok && r.context.fault != CallRaises && r.writes == [] ==> Dispatched(env, db, r) == Outcome(db, Succeeded)
  {
  }

  // An exception of the worker's code after n writes, or after all of them and m tasks, has
  // the effect of the response cut off there, as a failure.
  lemma {:induction false} ExceptionCutsOff(env: Env, db: Db, r: Response, n: nat, m: nat)
    requires UniqueKeys(db.keys) && r.ok && r.writes != [] && r.context.fault == CodeRaises(n, m)
    ensures var ws := if n < |r.writes| then r.writes[..n] else r.writes;
      var ts := if n < |r.writes| then [] else if m < |r.tasks| then r.tasks[..m] else r.tasks;
      var cut := Dispatched(env, db, Response(true, ws, ts, r.context.(fault := NoFault, summaryFits := true)));
      Dispatched(env, db, r) == Outcome(cut.db, if cut.status == Running then Running else Failed)
  {
    var ws := if n < |r.writes| then r.writes[..n] else r.writes;
    var ts := if n < |r.writes| then [] else if m < |r.tasks| then r.tasks[..m] else r.tasks;
    DispatchRefines(env, db, r);
    DispatchRefines(env, db, Response(true, ws, ts, r.context.(fault := NoFault, summaryFits := true)));
  }
}
