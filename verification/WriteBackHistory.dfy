/** What every run of dispatches keeps: the event log explains every entity, the
    key rows account for every event and every spawned task, and nothing that was
    committed is ever taken back. */
module WriteBackHistory {
  import opened Wrappers
  import opened MergePatch
  import opened SystemOfRecord
  import opened WriteBackRefinement

  // Dispatches one after the other.
  function Run(env: Env, db: Db, rs: seq<Response>): Db
    decreases |rs|
  {
    if rs == [] then db else Run(env, Dispatched(env, db, rs[0]).db, rs[1..])
  }

  /******* The invariant *******/

  function EventsOf(events: seq<Event>, id: nat): seq<Event> {
    if events == [] then []
    else
      var n := |events| - 1;
      EventsOf(events[..n], id) + if events[n].entity == id then [events[n]] else []
  }

  // One create, then updates; each event starts where the one before it ended, an empty
  // document being recorded as none.
  ghost predicate Explains(h: seq<Event>, e: Entity) {
    && h != []
    && h[0].action == Create && h[0].before == None && h[0].after == h[0].diff
    && (forall i :: 0 < i < |h| ==>
          && h[i].action == Update
          && (h[i].before.None? <==> h[i - 1].after == map[])
          && (h[i].before.Some? ==> h[i].before.value == h[i - 1].after)
          && h[i].after == Patched(h[i - 1].after, h[i].diff))
    && e.data == h[|h| - 1].after
    && e.version == |h|
  }

  // Entities that share a kind never share a non-empty external reference.
  ghost predicate UniqueRefs(entities: seq<Entity>) {
    forall i, j :: 0 <= i < j < |entities| && entities[i].kind == entities[j].kind && Truthy(entities[i].ref)
      ==> entities[i].ref != entities[j].ref
  }

  function Rows(keys: seq<KeyRow>, scope: Scope): seq<KeyRow> {
    if keys == [] then []
    else
      var n := |keys| - 1;
      Rows(keys[..n], scope) + if keys[n].scope == scope then [keys[n]] else []
  }

  // The row's hash is that of a proposed write which the event recorded: its patch, its key,
  // and as the event's entity one of its kind and reference.
  ghost predicate RowOfEvent(env: Env, known: set<ProposedWrite>, entities: seq<Entity>, row: KeyRow, e: Event) {
    exists w :: w in known && env.hash(w) == row.hash && w.key == row.key && Records(entities, e, w)
  }

  ghost predicate Records(entities: seq<Entity>, e: Event, w: ProposedWrite) {
    && ValidWrite(w)
    && e.key == w.key && e.diff == w.patch
    && e.entity < |entities|
    && entities[e.entity].kind == w.kind && entities[e.entity].ref == w.ref
  }

  ghost predicate Accounted(env: Env, known: set<ProposedWrite>, db: Db) {
    var writes, spawned := Rows(db.keys, EntityWrite), Rows(db.keys, TaskCreation);
    && |writes| == |db.events|
    && (forall i :: 0 <= i < |db.events| ==> RowOfEvent(env, known, db.entities, writes[i], db.events[i]))
    && |spawned| == |db.tasks|
    && (forall i :: 0 <= i < |db.tasks| ==> spawned[i].key == db.tasks[i].key && spawned[i].hash == "")
  }

  // `known` are the writes that may have been proposed so far.
  ghost predicate Inv(env: Env, known: set<ProposedWrite>, db: Db) {
    && UniqueKeys(db.keys)
    && UniqueRefs(db.entities)
    && (forall id :: 0 <= id < |db.entities| ==> Explains(EventsOf(db.events, id), db.entities[id]))
    && Accounted(env, known, db)
  }

  // What a later state keeps of an earlier one.
  ghost predicate Extends(db: Db, later: Db) {
    && db.events <= later.events
    && db.keys <= later.keys
    && db.tasks <= later.tasks
    && |db.entities| <= |later.entities|
    && (forall id :: 0 <= id < |db.entities| ==>
          && later.entities[id].kind == db.entities[id].kind
          && later.entities[id].ref == db.entities[id].ref
          && later.entities[id].version >= db.entities[id].version)
  }

  /******* Preservation *******/

  lemma {:induction false} NoEventsOf(events: seq<Event>, id: nat)
    requires forall i :: 0 <= i < |events| ==> events[i].entity != id
    ensures EventsOf(events, id) == []
  {
    if events != [] {
      NoEventsOf(events[..|events| - 1], id);
    }
  }

  lemma {:induction false} UpsertKeepsRefs(entities: seq<Entity>, w: ProposedWrite)
    requires UniqueRefs(entities)
    ensures UniqueRefs(Upserted(entities, w).0)
  {
    assert forall i :: 0 <= i < |entities| ==> entities[i] in entities;
  }

  lemma {:induction false} EventsHaveEntities(env: Env, known: set<ProposedWrite>, db: Db)
    requires Accounted(env, known, db)
    ensures forall i :: 0 <= i < |db.events| ==> db.events[i].entity < |db.entities|
  {
    var writes := Rows(db.keys, EntityWrite);
    forall i | 0 <= i < |db.events| ensures db.events[i].entity < |db.entities| {
      assert RowOfEvent(env, known, db.entities, writes[i], db.events[i]);
    }
  }

  lemma {:induction false} EventsOfAppend(events: seq<Event>, e: Event, id: nat)
    ensures EventsOf(events + [e], id) == if e.entity == id then EventsOf(events, id) + [e] else EventsOf(events, id)
  {
    assert (events + [e])[..|events|] == events;
  }

  lemma {:induction false} UpsertKeepsHistory(entities: seq<Entity>, events: seq<Event>, w: ProposedWrite, id: nat)
    requires forall i :: 0 <= i < |events| ==> events[i].entity < |entities|
    requires id < |entities| ==> Explains(EventsOf(events, id), entities[id])
    requires id < |Upserted(entities, w).0|
    ensures var (after, e) := Upserted(entities, w); Explains(EventsOf(events + [e], id), after[id])
  {
    var (after, e) := Upserted(entities, w);
    EventsOfAppend(events, e, id);
    if id == |entities| {
      NoEventsOf(events, id);
    } else if e.entity == id {
      assert FindEntity(entities, w) == Some(id);
      ExplainsUpdate(EventsOf(events, id), entities[id], e, after[id]);
    }
  }

  lemma {:induction false} ExplainsUpdate(h: seq<Event>, x: Entity, e: Event, y: Entity)
    requires Explains(h, x) && e.action == Update
    requires (e.before.None? <==> x.data == map[]) && (e.before.Some? ==> e.before.value == x.data)
    requires e.after == Patched(x.data, e.diff) && y.data == e.after && y.version == x.version + 1
    ensures Explains(h + [e], y)
  {
    var g := h + [e];
    forall i | 0 < i < |g|
      ensures g[i].action == Update && g[i].after == Patched(g[i - 1].after, g[i].diff)
      ensures g[i].before.None? <==> g[i - 1].after == map[]
      ensures g[i].before.Some? ==> g[i].before.value == g[i - 1].after
    {
      if i < |h| {
        assert g[i] == h[i] && g[i - 1] == h[i - 1];
      }
    }
  }

  lemma {:induction false} UpsertKeepsRecords(
    env: Env, known: set<ProposedWrite>, entities: seq<Entity>, w: ProposedWrite, row: KeyRow, e: Event)
    requires RowOfEvent(env, known, entities, row, e)
    ensures RowOfEvent(env, known, Upserted(entities, w).0, row, e)
  {
    var v :| v in known && env.hash(v) == row.hash && v.key == row.key && Records(entities, e, v);
    assert Records(Upserted(entities, w).0, e, v);
  }

  lemma {:induction false} WriteKeepsAccounts(env: Env, known: set<ProposedWrite>, db: Db, w: ProposedWrite)
    requires Accounted(env, known, db) && ValidWrite(w) && w in known
    ensures var (entities, e) := Upserted(db.entities, w);
      var keys := db.keys + [KeyRow(w.key, EntityWrite, env.hash(w))];
      Accounted(env, known, Db(entities, db.events + [e], keys, db.tasks))
  {
    var (entities, e) := Upserted(db.entities, w);
    var row := KeyRow(w.key, EntityWrite, env.hash(w));
    RowsAppend(db.keys, row, EntityWrite);
    RowsAppend(db.keys, row, TaskCreation);
    EventsStayAccounted(env, known, db, w);
    assert Records(entities, e, w);
    AllRecorded(env, known, entities, Rows(db.keys, EntityWrite), db.events, row, e);
  }

  lemma {:induction false} AllRecorded(
    env: Env, known: set<ProposedWrite>, entities: seq<Entity>,
    rows: seq<KeyRow>, events: seq<Event>, row: KeyRow, e: Event)
    requires |rows| == |events| && RowOfEvent(env, known, entities, row, e)
    requires forall i :: 0 <= i < |events| ==> RowOfEvent(env, known, entities, rows[i], events[i])
    ensures forall i :: 0 <= i <= |events| ==> RowOfEvent(env, known, entities, (rows + [row])[i], (events + [e])[i])
  {
  }

  lemma {:induction false} EventsStayAccounted(env: Env, known: set<ProposedWrite>, db: Db, w: ProposedWrite)
    requires Accounted(env, known, db)
    ensures var entities, writes := Upserted(db.entities, w).0, Rows(db.keys, EntityWrite);
      forall i :: 0 <= i < |db.events| ==> RowOfEvent(env, known, entities, writes[i], db.events[i])
  {
    var entities, writes := Upserted(db.entities, w).0, Rows(db.keys, EntityWrite);
    forall i | 0 <= i < |db.events| ensures RowOfEvent(env, known, entities, writes[i], db.events[i]) {
      UpsertKeepsRecords(env, known, db.entities, w, writes[i], db.events[i]);
    }
  }

  lemma {:induction false} WriteKeeps(env: Env, known: set<ProposedWrite>, db: Db, w: ProposedWrite)
    requires Inv(env, known, db) && w in known
    ensures Inv(env, known, RefWrite(env, db, w).db)
  {
    var d := RefWrite(env, db, w).db;
    if d != db {
      AppendUnique(db.keys, KeyRow(w.key, EntityWrite, env.hash(w)));
      WriteKeepsAccounts(env, known, db, w);
      UpsertKeepsRefs(db.entities, w);
      EventsHaveEntities(env, known, db);
      forall id | 0 <= id < |d.entities| ensures Explains(EventsOf(d.events, id), d.entities[id]) {
        UpsertKeepsHistory(db.entities, db.events, w, id);
      }
    }
  }

  lemma {:induction false} RowsAppend(keys: seq<KeyRow>, row: KeyRow, scope: Scope)
    ensures Rows(keys + [row], scope) == if row.scope == scope then Rows(keys, scope) + [row] else Rows(keys, scope)
  {
    assert (keys + [row])[..|keys|] == keys;
  }

  lemma {:induction false} TaskKeepsAccounts(env: Env, known: set<ProposedWrite>, db: Db, t: ProposedTask)
    requires Accounted(env, known, db)
    ensures Accounted(env, known, db.(keys := db.keys + [KeyRow(t.key, TaskCreation, "")], tasks := db.tasks + [t]))
  {
    RowsAppend(db.keys, KeyRow(t.key, TaskCreation, ""), EntityWrite);
    RowsAppend(db.keys, KeyRow(t.key, TaskCreation, ""), TaskCreation);
  }

  lemma {:induction false} TaskKeeps(env: Env, known: set<ProposedWrite>, db: Db, t: ProposedTask)
    requires Inv(env, known, db)
    ensures Inv(env, known, RefTask(db, t))
  {
    if FindKey(db.keys, t.key).None? {
      TaskKeepsAccounts(env, known, db, t);
      AppendUnique(db.keys, KeyRow(t.key, TaskCreation, ""));
    }
  }

  lemma {:induction false} WritesKeep(env: Env, known: set<ProposedWrite>, db: Db, ws: seq<ProposedWrite>)
    requires Inv(env, known, db) && forall w :: w in ws ==> w in known
    ensures Inv(env, known, RefWrites(env, db, ws).db)
    decreases |ws|
  {
    if ws != [] {
      WriteKeeps(env, known, db, ws[0]);
      if RefWrite(env, db, ws[0]).Accepted? {
        WritesKeep(env, known, RefWrite(env, db, ws[0]).db, ws[1..]);
      }
    }
  }

  lemma {:induction false} TasksKeep(env: Env, known: set<ProposedWrite>, db: Db, ts: seq<ProposedTask>)
    requires Inv(env, known, db)
    ensures Inv(env, known, RefTasks(db, ts))
    decreases |ts|
  {
    if ts != [] {
      TaskKeeps(env, known, db, ts[0]);
      TasksKeep(env, known, RefTask(db, ts[0]), ts[1..]);
    }
  }

  lemma {:induction false} DispatchKeeps(env: Env, known: set<ProposedWrite>, db: Db, r: Response)
    requires Inv(env, known, db) && forall w :: w in r.writes ==> w in known
    ensures Inv(env, known, Dispatched(env, db, r).db)
  {
    DispatchRefines(env, db, r);
    WritesKeep(env, known, db, r.ReachedWrites());
    TasksKeep(env, known, RefWrites(env, db, r.ReachedWrites()).db, r.ReachedTasks());
  }

  // The writes of a run's responses.
  function Proposed(rs: seq<Response>): set<ProposedWrite> {
    set r, w | r in rs && w in r.writes :: w
  }

  lemma {:induction false} RunKeeps(env: Env, known: set<ProposedWrite>, db: Db, rs: seq<Response>)
    requires Inv(env, known, db) && Proposed(rs) <= known
    ensures Inv(env, known, Run(env, db, rs))
    decreases |rs|
  {
    if rs != [] {
      assert forall w :: w in rs[0].writes ==> w in Proposed(rs);
      assert Proposed(rs[1..]) <= Proposed(rs);
      DispatchKeeps(env, known, db, rs[0]);
      RunKeeps(env, known, Dispatched(env, db, rs[0]).db, rs[1..]);
    }
  }

  /******* Nothing is taken back *******/

  // A later state adds to an earlier one, and keys stay unique if they were.
  ghost predicate Grows(db: Db, later: Db) {
    Extends(db, later) && (UniqueKeys(db.keys) ==> UniqueKeys(later.keys))
  }

  lemma {:induction false} WriteGrows(env: Env, db: Db, w: ProposedWrite)
    ensures Grows(db, RefWrite(env, db, w).db)
  {
    if UniqueKeys(db.keys) {
      AppendUnique(db.keys, KeyRow(w.key, EntityWrite, env.hash(w)));
    }
  }

  lemma {:induction false} TaskGrows(db: Db, t: ProposedTask)
    ensures Grows(db, RefTask(db, t))
  {
    if UniqueKeys(db.keys) {
      AppendUnique(db.keys, KeyRow(t.key, TaskCreation, ""));
    }
  }

  lemma {:induction false} WritesGrow(env: Env, db: Db, ws: seq<ProposedWrite>)
    ensures Grows(db, RefWrites(env, db, ws).db)
    decreases |ws|
  {
    if ws != [] {
      WriteGrows(env, db, ws[0]);
      if RefWrite(env, db, ws[0]).Accepted? {
        WritesGrow(env, RefWrite(env, db, ws[0]).db, ws[1..]);
      }
    }
  }

  lemma {:induction false} TasksGrow(db: Db, ts: seq<ProposedTask>)
    ensures Grows(db, RefTasks(db, ts))
    decreases |ts|
  {
    if ts != [] {
      TaskGrows(db, ts[0]);
      TasksGrow(RefTask(db, ts[0]), ts[1..]);
    }
  }

  lemma {:induction false} DispatchGrows(env: Env, db: Db, r: Response)
    requires UniqueKeys(db.keys)
    ensures Grows(db, Dispatched(env, db, r).db)
  {
    DispatchRefines(env, db, r);
    WritesGrow(env, db, r.ReachedWrites());
    TasksGrow(RefWrites(env, db, r.ReachedWrites()).db, r.ReachedTasks());
  }

  lemma {:induction false} RunGrows(env: Env, db: Db, rs: seq<Response>)
    requires UniqueKeys(db.keys)
    ensures Grows(db, Run(env, db, rs))
    decreases |rs|
  {
    if rs != [] {
      DispatchGrows(env, db, rs[0]);
      RunGrows(env, Dispatched(env, db, rs[0]).db, rs[1..]);
    }
  }

  lemma {:induction false} RunAppend(env: Env, db: Db, rs: seq<Response>, later: seq<Response>)
    ensures Run(env, db, rs + later) == Run(env, Run(env, db, rs), later)
    decreases |rs|
  {
    if rs == [] {
      assert rs + later == later;
    } else {
      assert (rs + later)[1..] == rs[1..] + later;
      RunAppend(env, Dispatched(env, db, rs[0]).db, rs[1..], later);
    }
  }

  /******* The log determines the state *******/

  function Diffs(h: seq<Event>): seq<Doc> {
    seq(|h|, i requires 0 <= i < |h| => h[i].diff)
  }

  lemma {:induction false} HistoryFolds(h: seq<Event>, e: Entity)
    requires Explains(h, e)
    ensures e.data == PatchedAll(h[0].after, Diffs(h[1..]))
    decreases |h|
  {
    var n := |h| - 1;
    if n > 0 {
      HistoryFolds(h[..n], Entity(e.kind, e.ref, h[n - 1].after, n));
      LastDiff(h);
      FoldLast(h[0].after, Diffs(h[..n][1..]), h[n].diff);
    }
  }

  lemma {:induction false} LastDiff(h: seq<Event>)
    requires |h| > 1
    ensures Diffs(h[1..]) == Diffs(h[..|h| - 1][1..]) + [h[|h| - 1].diff]
  {
  }

  lemma {:induction false} FoldLast(t: Doc, patches: seq<Doc>, p: Doc)
    ensures PatchedAll(t, patches + [p]) == Patched(PatchedAll(t, patches), p)
  {
    assert (patches + [p])[..|patches|] == patches;
  }

  // After any run from the empty tables, an entity's data is its first event's
  // document under one merge patch: the override of all its later diffs.
  lemma {:induction false} LogDeterminesState(env: Env, rs: seq<Response>, id: nat)
    requires id < |Run(env, EMPTY_DB, rs).entities|
    ensures var db := Run(env, EMPTY_DB, rs);
      var h := EventsOf(db.events, id);
      && Explains(h, db.entities[id])
      && db.entities[id].data == PatchedAll(h[0].after, Diffs(h[1..]))
                              == Patched(h[0].after, Overriding(Diffs(h[1..])))
  {
    RunKeeps(env, Proposed(rs), EMPTY_DB, rs);
    var db := Run(env, EMPTY_DB, rs);
    var h := EventsOf(db.events, id);
    HistoryFolds(h, db.entities[id]);
    PatchesCollapse(h[0].after, Diffs(h[1..]));
  }

  // Only DNS records enter the store, and every logged patch names all four fields.
  lemma {:induction false} OnlyAllowedWritesAreLogged(env: Env, rs: seq<Response>, i: nat)
    requires i < |Run(env, EMPTY_DB, rs).events|
    ensures var db := Run(env, EMPTY_DB, rs);
      var e := db.events[i];
      && e.entity < |db.entities| && db.entities[e.entity].kind == "dns_record"
      && "name" in e.diff && "record_type" in e.diff && "value" in e.diff && "ttl" in e.diff
  {
    RunKeeps(env, Proposed(rs), EMPTY_DB, rs);
    var db := Run(env, EMPTY_DB, rs);
    assert RowOfEvent(env, Proposed(rs), db.entities, Rows(db.keys, EntityWrite)[i], db.events[i]);
  }

  // A later state only adds: events, keys and tasks are prefixes, entities keep
  // their identity and never lose a version.
  lemma {:induction false} HistoryIsAppendOnly(env: Env, rs: seq<Response>, later: seq<Response>)
    ensures Extends(Run(env, EMPTY_DB, rs), Run(env, EMPTY_DB, rs + later))
  {
    RunAppend(env, EMPTY_DB, rs, later);
    RunGrows(env, EMPTY_DB, rs);
    RunGrows(env, Run(env, EMPTY_DB, rs), later);
  }

  // Whether one more write keeps all non-null references unique: it fails exactly
  // for a new write whose reference is the empty string (which the lookup treats as
  // no reference) when its kind already has such an entity.
  ghost predicate AllRefsUnique(entities: seq<Entity>) {
    forall i, j :: 0 <= i < j < |entities| && entities[i].kind == entities[j].kind && entities[i].ref.Some?
      ==> entities[i].ref != entities[j].ref
  }

  lemma {:induction false} EmptyRefBreaksUniquenessIff(env: Env, db: Db, w: ProposedWrite)
    requires AllRefsUnique(db.entities)
    requires ValidWrite(w) && CheckIdempotency(db.keys, w.key, env.hash(w)) == Fresh
    ensures AllRefsUnique(RefWrite(env, db, w).db.entities)
       <==> !(w.ref == Some("") && exists e :: e in db.entities && e.kind == w.kind && e.ref == Some(""))
  {
    var entities := RefWrite(env, db, w).db.entities;
    match FindEntity(db.entities, w)
    case Some(i) =>
      assert forall j :: 0 <= j < |entities| ==>
        entities[j].kind == db.entities[j].kind && entities[j].ref == db.entities[j].ref;
    case None =>
      var n := |db.entities|;
      assert entities[n].ref == w.ref && entities[n].kind == w.kind;
      if w.ref == Some("") && exists e :: e in db.entities && e.kind == w.kind && e.ref == Some("") {
        var i :| 0 <= i < n && db.entities[i].kind == w.kind && db.entities[i].ref == Some("");
        assert entities[i] == db.entities[i];
      } else {
        forall i | 0 <= i < n && entities[i].kind == w.kind && entities[i].ref.Some?
          ensures entities[i].ref != w.ref
        {
          assert db.entities[i] in db.entities && !Matches(db.entities[i], w);
        }
      }
  }

  // Over any run all entities are DNS records, and their non-null references are unique
  // exactly if at most one of them is the empty string.
  lemma {:induction false} RunRefsUniqueIff(env: Env, rs: seq<Response>)
    ensures var es := Run(env, EMPTY_DB, rs).entities;
      && (forall i :: 0 <= i < |es| ==> es[i].kind == "dns_record")
      && (AllRefsUnique(es) <==> forall i, j :: 0 <= i < j < |es| ==> !(es[i].ref == es[j].ref == Some("")))
  {
    RunKeeps(env, Proposed(rs), EMPTY_DB, rs);
    var db := Run(env, EMPTY_DB, rs);
    forall i | 0 <= i < |db.entities| ensures db.entities[i].kind == "dns_record" {
      EntityIsRecorded(env, Proposed(rs), db, i);
    }
  }

  lemma {:induction false} EntityIsRecorded(env: Env, known: set<ProposedWrite>, db: Db, id: nat)
    requires Inv(env, known, db) && id < |db.entities|
    ensures db.entities[id].kind == "dns_record"
  {
    var h := EventsOf(db.events, id);
    assert Explains(h, db.entities[id]);
    EventsOfLaw(db.events, id, h[0]);
    var i :| 0 <= i < |db.events| && db.events[i] == h[0];
    assert RowOfEvent(env, known, db.entities, Rows(db.keys, EntityWrite)[i], db.events[i]);
  }

  lemma {:induction false} EventsOfLaw(events: seq<Event>, id: nat, e: Event)
    requires e in EventsOf(events, id)
    ensures e in events && e.entity == id
  {
    var n := |events| - 1;
    if e in EventsOf(events[..n], id) {
      EventsOfLaw(events[..n], id, e);
    }
  }

  // Two writes with the empty reference are enough.
  lemma {:induction false} TwoEmptyRefsBreakUniqueness(env: Env, v: ProposedWrite, w: ProposedWrite, c: Context)
    requires ValidWrite(v) && ValidWrite(w) && v.key != w.key && v.ref == w.ref == Some("")
    requires env.writeFits(v) && env.writeFits(w) && c.summaryFits && c.fault == NoFault
    ensures !AllRefsUnique(Run(env, EMPTY_DB, [Response(true, [v, w], [], c)]).entities)
  {
    var r := Response(true, [v, w], [], c);
    var d := RefWrite(env, EMPTY_DB, v).db;
    FindKeyAppend([], KeyRow(v.key, EntityWrite, env.hash(v)), w.key);
    AcceptTwo(env, EMPTY_DB, v, w);
    assert WriteKeys(r.writes) + TaskKeys(r.tasks) == [v.key, w.key];
    DistinctKeysNeverLost(env, EMPTY_DB, r);
    DispatchRefines(env, EMPTY_DB, r);
    RunOfOne(env, EMPTY_DB, r);
    var es := RefWrite(env, d, w).db.entities;
    assert es[0].ref == es[1].ref && es[0].kind == es[1].kind;
  }

  lemma {:induction false} AcceptTwo(env: Env, db: Db, v: ProposedWrite, w: ProposedWrite)
    requires RefWrite(env, db, v).Accepted? && RefWrite(env, RefWrite(env, db, v).db, w).Accepted?
    ensures RefWrites(env, db, [v, w]) == RefWrite(env, RefWrite(env, db, v).db, w)
  {
    var d := RefWrite(env, db, v).db;
    assert [v, w][1..] == [w] && [w][1..] == [];
    assert RefWrites(env, d, [w]) == RefWrites(env, RefWrite(env, d, w).db, []);
  }

  lemma {:induction false} RunOfOne(env: Env, db: Db, r: Response)
    ensures Run(env, db, [r]) == Dispatched(env, db, r).db
  {
    assert [r][1..] == [];
    assert Run(env, Dispatched(env, db, r).db, []) == Dispatched(env, db, r).db;
  }

  /******* At most once *******/

  lemma {:induction false} RowsDistinct(keys: seq<KeyRow>, scope: Scope)
    requires UniqueKeys(keys)
    ensures UniqueKeys(Rows(keys, scope))
    ensures forall row :: row in Rows(keys, scope) <==> row in keys && row.scope == scope
  {
    if keys != [] {
      var n := |keys| - 1;
      RowsDistinct(keys[..n], scope);
      forall row | row in Rows(keys[..n], scope) ensures row.key != keys[n].key {
        var i :| 0 <= i < n && keys[i] == row;
      }
      assert keys == keys[..n] + [keys[n]];
    }
  }

  // Writes and tasks share one key space: over any run no key makes two events,
  // two tasks, or an event and a task.
  lemma {:induction false} AtMostOncePerKey(env: Env, rs: seq<Response>)
    ensures var db := Run(env, EMPTY_DB, rs);
      && (forall i, j :: 0 <= i < j < |db.events| ==> db.events[i].key != db.events[j].key)
      && (forall i, j :: 0 <= i < j < |db.tasks| ==> db.tasks[i].key != db.tasks[j].key)
      && (forall i, j :: 0 <= i < |db.events| && 0 <= j < |db.tasks| ==> db.events[i].key != db.tasks[j].key)
  {
    RunKeeps(env, Proposed(rs), EMPTY_DB, rs);
    KeysAreSpentOnce(env, Proposed(rs), Run(env, EMPTY_DB, rs));
  }

  lemma {:induction false} KeysAreSpentOnce(env: Env, known: set<ProposedWrite>, db: Db)
    requires Accounted(env, known, db) && UniqueKeys(db.keys)
    ensures forall i, j :: 0 <= i < j < |db.events| ==> db.events[i].key != db.events[j].key
    ensures forall i, j :: 0 <= i < j < |db.tasks| ==> db.tasks[i].key != db.tasks[j].key
    ensures forall i, j :: 0 <= i < |db.events| && 0 <= j < |db.tasks| ==> db.events[i].key != db.tasks[j].key
  {
    var writes, spawned := Rows(db.keys, EntityWrite), Rows(db.keys, TaskCreation);
    RowsDistinct(db.keys, EntityWrite);
    RowsDistinct(db.keys, TaskCreation);
    forall i | 0 <= i < |db.events| ensures writes[i].key == db.events[i].key {
      assert RowOfEvent(env, known, db.entities, writes[i], db.events[i]);
    }
    ScopesAreApart(db.keys);
  }

  // A write and a task never have the same key.
  lemma {:induction false} ScopesAreApart(keys: seq<KeyRow>)
    requires UniqueKeys(keys)
    ensures var writes, spawned := Rows(keys, EntityWrite), Rows(keys, TaskCreation);
      forall i, j :: 0 <= i < |writes| && 0 <= j < |spawned| ==> writes[i].key != spawned[j].key
  {
    var writes, spawned := Rows(keys, EntityWrite), Rows(keys, TaskCreation);
    RowsDistinct(keys, EntityWrite);
    RowsDistinct(keys, TaskCreation);
    forall i, j | 0 <= i < |writes| && 0 <= j < |spawned| ensures writes[i].key != spawned[j].key {
      assert writes[i] in writes && spawned[j] in spawned;
      var a :| 0 <= a < |keys| && keys[a] == writes[i];
      var b :| 0 <= b < |keys| && keys[b] == spawned[j];
    }
  }

  /******* Batches *******/

  ghost predicate Stored(env: Env, db: Db, w: ProposedWrite) {
    ValidWrite(w) && CheckIdempotency(db.keys, w.key, env.hash(w)) == AlreadyApplied
  }

  lemma {:induction false} FindKeyPrefix(keys: seq<KeyRow>, more: seq<KeyRow>, key: string)
    requires keys <= more && FindKey(keys, key).Some?
    ensures FindKey(more, key) == FindKey(keys, key)
  {
    if keys[0].key != key {
      FindKeyPrefix(keys[1..], more[1..], key);
    }
  }

  lemma {:induction false} AcceptedStored(env: Env, db: Db, ws: seq<ProposedWrite>)
    requires RefWrites(env, db, ws).Accepted?
    ensures forall w :: w in ws ==> Stored(env, RefWrites(env, db, ws).db, w)
    decreases |ws|
  {
    if ws != [] {
      var w := ws[0];
      var d := RefWrite(env, db, w).db;
      FindKeyAppend(db.keys, KeyRow(w.key, EntityWrite, env.hash(w)), w.key);
      AcceptedStored(env, d, ws[1..]);
      WritesGrow(env, d, ws[1..]);
      FindKeyPrefix(d.keys, RefWrites(env, d, ws[1..]).db.keys, w.key);
    }
  }

  lemma {:induction false} TasksStored(db: Db, ts: seq<ProposedTask>)
    ensures forall t :: t in ts ==> FindKey(RefTasks(db, ts).keys, t.key).Some?
    decreases |ts|
  {
    if ts != [] {
      var t := ts[0];
      var d := RefTask(db, t);
      FindKeyAppend(db.keys, KeyRow(t.key, TaskCreation, ""), t.key);
      TasksStored(d, ts[1..]);
      TasksGrow(d, ts[1..]);
      FindKeyPrefix(d.keys, RefTasks(d, ts[1..]).keys, t.key);
    }
  }

  // What a succeeded dispatch leaves behind.
  ghost predicate FullyApplied(env: Env, db: Db, r: Response) {
    && r.ok
    && (forall w :: w in r.writes ==> Stored(env, db, w))
    && (r.writes != [] ==> forall t :: t in r.tasks ==> FindKey(db.keys, t.key).Some?)
  }

  // A succeeded dispatch met no obstacle, and applied everything.
  lemma {:induction false} SucceededIsFullyApplied(env: Env, db: Db, r: Response)
    requires UniqueKeys(db.keys) && Dispatched(env, db, r).status == Succeeded
    ensures FullyApplied(env, Dispatched(env, db, r).db, r) && Unhindered(r)
  {
    DispatchRefines(env, db, r);
    if r.writes != [] {
      AcceptedStored(env, db, r.writes);
      var d := RefWrites(env, db, r.writes).db;
      TasksStored(d, r.tasks);
      TasksGrow(d, r.tasks);
      var last := Dispatched(env, db, r).db;
      forall w | w in r.writes ensures Stored(env, last, w) {
        FindKeyPrefix(d.keys, last.keys, w.key);
      }
    }
  }

  // Nothing but the writes and tasks themselves can fail the response.
  predicate Unhindered(r: Response) {
    && !r.context.fault.CallRaises?
    && (r.writes != [] ==>
          !r.context.fault.CodeRaises? && r.context.summaryFits && (r.tasks != [] ==> r.context.tasksAllowed))
  }

  // In a succeeded task every proposed write has a key row with the hash of its own payload,
  // and an event carries its key.
  lemma {:induction false} SucceededWritesHaveEvents(
    env: Env, rs: seq<Response>, r: Response, w: ProposedWrite) returns (i: nat)
    requires w in r.writes && env.hash(w) != ""
    requires Dispatched(env, Run(env, EMPTY_DB, rs), r).status == Succeeded
    ensures var d := Dispatched(env, Run(env, EMPTY_DB, rs), r).db;
      && KeyRow(w.key, EntityWrite, env.hash(w)) in d.keys
      && i < |d.events| && d.events[i].key == w.key
      && RowOfEvent(env, Proposed(rs + [r]), d.entities, KeyRow(w.key, EntityWrite, env.hash(w)), d.events[i])
  {
    var db, known := Run(env, EMPTY_DB, rs), Proposed(rs + [r]);
    assert Proposed(rs) <= known && r in rs + [r];
    RunKeeps(env, known, EMPTY_DB, rs);
    SucceededIsFullyApplied(env, db, r);
    DispatchKeeps(env, known, db, r);
    var d := Dispatched(env, db, r).db;
    i := WriteRowHasEvent(env, known, d, w);
  }

  lemma {:induction false} WriteRowHasEvent(
    env: Env, known: set<ProposedWrite>, d: Db, w: ProposedWrite) returns (i: nat)
    requires Inv(env, known, d) && Stored(env, d, w) && env.hash(w) != ""
    ensures KeyRow(w.key, EntityWrite, env.hash(w)) in d.keys
    ensures i < |d.events| && d.events[i].key == w.key
    ensures RowOfEvent(env, known, d.entities, KeyRow(w.key, EntityWrite, env.hash(w)), d.events[i])
  {
    var row := FindKey(d.keys, w.key).value;
    RowsDistinct(d.keys, EntityWrite);
    RowsDistinct(d.keys, TaskCreation);
    assert row.scope == TaskCreation ==> row in Rows(d.keys, TaskCreation);
    assert row in Rows(d.keys, EntityWrite);
    i :| 0 <= i < |d.events| && Rows(d.keys, EntityWrite)[i] == row;
    assert RowOfEvent(env, known, d.entities, row, d.events[i]);
  }

  // If no other write proposed in the run has its hash, that event records it: its patch,
  // on an entity of its kind and reference.
  lemma {:induction false} SucceededWritesAreRecorded(env: Env, rs: seq<Response>, r: Response, w: ProposedWrite)
    requires w in r.writes && env.hash(w) != ""
    requires forall v :: v in Proposed(rs + [r]) && env.hash(v) == env.hash(w) ==> v == w
    requires Dispatched(env, Run(env, EMPTY_DB, rs), r).status == Succeeded
    ensures var d := Dispatched(env, Run(env, EMPTY_DB, rs), r).db;
      && KeyRow(w.key, EntityWrite, env.hash(w)) in d.keys
      && exists i :: 0 <= i < |d.events| && Records(d.entities, d.events[i], w)
  {
    var i := SucceededWritesHaveEvents(env, rs, r, w);
  }

  lemma {:induction false} StoredWritesAreSkipped(env: Env, db: Db, ws: seq<ProposedWrite>)
    requires forall w :: w in ws ==> Stored(env, db, w)
    ensures RefWrites(env, db, ws) == Accepted(db) && !WritesLost(env, db, None, ws)
    ensures LastKeys(env, db, None, ws) == None
    decreases |ws|
  {
    if ws != [] {
      assert Stored(env, db, ws[0]);
      StoredWritesAreSkipped(env, db, ws[1..]);
    }
  }

  lemma {:induction false} StoredTasksAreSkipped(db: Db, ts: seq<ProposedTask>)
    requires forall t :: t in ts ==> FindKey(db.keys, t.key).Some?
    ensures RefTasks(db, ts) == db
    decreases |ts|
  {
    if ts != [] {
      assert FindKey(db.keys, ts[0].key).Some?;
      StoredTasksAreSkipped(db, ts[1..]);
    }
  }

  // A response that succeeded leaves the tables alone ever after, whatever was dispatched in
  // between and whatever its circumstances are by then; and it succeeds again exactly if
  // nothing hinders it.
  lemma {:induction false} RedispatchIsNoOp(env: Env, db: Db, r: Response, between: seq<Response>, c: Context)
    requires UniqueKeys(db.keys) && Dispatched(env, db, r).status == Succeeded
    ensures var later := Run(env, Dispatched(env, db, r).db, between);
      var again := Dispatched(env, later, r.(context := c));
      again.db == later && (again.status == Succeeded <==> Unhindered(r.(context := c)))
  {
    var d := Dispatched(env, db, r).db;
    SucceededIsFullyApplied(env, db, r);
    DispatchGrows(env, db, r);
    RunGrows(env, d, between);
    StillApplied(env, d, Run(env, d, between), r);
    StoredIsNoOp(env, Run(env, d, between), r.(context := c));
  }

  lemma {:induction false} StillApplied(env: Env, db: Db, later: Db, r: Response)
    requires FullyApplied(env, db, r) && db.keys <= later.keys
    ensures FullyApplied(env, later, r)
  {
    forall w | w in r.writes ensures Stored(env, later, w) {
      assert Stored(env, db, w);
      FindKeyPrefix(db.keys, later.keys, w.key);
    }
    if r.writes != [] {
      forall t | t in r.tasks ensures FindKey(later.keys, t.key).Some? {
        FindKeyPrefix(db.keys, later.keys, t.key);
      }
    }
  }

  lemma {:induction false} StoredIsNoOp(env: Env, db: Db, r: Response)
    requires UniqueKeys(db.keys) && FullyApplied(env, db, r)
    ensures var again := Dispatched(env, db, r); again.db == db && (again.status == Succeeded <==> Unhindered(r))
  {
    StoredWritesAreSkipped(env, db, r.ReachedWrites());
    if r.writes != [] {
      StoredTasksAreSkipped(db, r.ReachedTasks());
      StorableNeverLost(env, r.context.versions, db, r.ReachedTasks());
    }
    DispatchRefines(env, db, r);
  }

  // The number of writes that are accepted before the first that is not.
  function AcceptedPrefix(env: Env, db: Db, ws: seq<ProposedWrite>): (n: nat)
    ensures n <= |ws|
    decreases |ws|
  {
    if ws == [] || RefWrite(env, db, ws[0]).Refused? then 0
    else 1 + AcceptedPrefix(env, RefWrite(env, db, ws[0]).db, ws[1..])
  }

  lemma {:induction false} PrefixIsCommitted(env: Env, db: Db, last: Option<string>, ws: seq<ProposedWrite>)
    ensures var n := AcceptedPrefix(env, db, ws);
      && RefWrites(env, db, ws[..n]) == Accepted(RefWrites(env, db, ws).db)
      && LastKeys(env, db, last, ws[..n]) == LastKeys(env, db, last, ws)
      && (n == |ws| <==> RefWrites(env, db, ws).Accepted?)
      && (n < |ws| ==> RefWrite(env, RefWrites(env, db, ws).db, ws[n]).Refused?)
      && (!WritesLost(env, db, last, ws) ==> !WritesLost(env, db, last, ws[..n]))
    decreases |ws|
  {
    if ws != [] && RefWrite(env, db, ws[0]).Accepted? {
      var d := RefWrite(env, db, ws[0]).db;
      var n := AcceptedPrefix(env, d, ws[1..]);
      PrefixIsCommitted(env, d, LastKey(env, db, last, ws[0]), ws[1..]);
      assert ws[..n + 1][0] == ws[0] && ws[..n + 1][1..] == ws[1..][..n];
    }
  }

  // The part of a response that comes before its first obstacle, without the obstacle.
  function Unobstructed(env: Env, db: Db, r: Response): Response {
    var n := AcceptedPrefix(env, db, r.ReachedWrites());
    var ts := if n == |r.writes| && r.context.tasksAllowed then r.ReachedTasks() else [];
    Response(true, r.writes[..n], ts, r.context.(summaryFits := true, fault := NoFault))
  }

  // A failed dispatch commits nothing if the agent call or its handling failed; otherwise it
  // commits exactly what the part before the obstacle commits, with success. The obstacle is
  // a write that is invalid or in conflict, tasks that are not allowed, or an exception.
  lemma {:induction false} FailedBatchCommitsPrefix(env: Env, db: Db, r: Response)
    requires UniqueKeys(db.keys) && Dispatched(env, db, r).status == Failed
    ensures var d := Dispatched(env, db, r).db;
      if !r.ok || r.context.fault.CallRaises? then d == db
      else
        var n := AcceptedPrefix(env, db, r.ReachedWrites());
        && Dispatched(env, db, Unobstructed(env, db, r)) == Outcome(d, Succeeded)
        && if n < |r.ReachedWrites()| then
             !ValidWrite(r.writes[n]) || CheckIdempotency(d.keys, r.writes[n].key, env.hash(r.writes[n])) == Conflict
           else r.context.fault.CodeRaises? || (r.tasks != [] && !r.context.tasksAllowed)
  {
    DispatchRefines(env, db, r);
    if r.ok && !r.context.fault.CallRaises? {
      PrefixIsCommitted(env, db, None, r.ReachedWrites());
      UnobstructedCommits(env, db, r);
    }
  }

  lemma {:induction false} UnobstructedCommits(env: Env, db: Db, r: Response)
    requires UniqueKeys(db.keys) && r.ok && !r.context.fault.CallRaises?
    requires Dispatched(env, db, r).status == Failed
    ensures Dispatched(env, db, Unobstructed(env, db, r)) == Outcome(Dispatched(env, db, r).db, Succeeded)
  {
    var u, ws := Unobstructed(env, db, r), r.ReachedWrites();
    DispatchRefines(env, db, r);
    PrefixIsCommitted(env, db, None, ws);
    assert u.writes == ws[..AcceptedPrefix(env, db, ws)];
    DispatchRefines(env, db, u);
  }
}
