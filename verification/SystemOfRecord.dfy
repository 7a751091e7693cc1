/** The worker's write-back of agent-proposed writes and tasks
    (apps/nexus_worker/jobs.py, packages/shared/sor.py).

    A dispatch runs in one SQL transaction whose session does not flush before
    queries: a lookup sees committed and flushed rows, not rows that were only
    added. The worker flushes once per applied write, before it adds that
    write's event and key row, so exactly the rows of the last applied write are
    invisible. A flush checks the unique index on `idempotency_keys.key`, the
    foreign keys, and that every value can be stored; when it fails the whole
    transaction is lost. */
module SystemOfRecord {
  import opened Wrappers
  import opened MergePatch

  datatype ProposedWrite = ProposedWrite(
    kind: string, ref: Option<string>, action: string, patch: Doc, fullState: Option<Doc>, key: string)
  datatype ProposedTask = ProposedTask(
    taskType: string, priority: string, payload: Doc, personaVersion: Option<int>, key: string)

  // What code outside the database does while a response is handled. `CallRaises`: the agent
  // call, the parsing of its answer, or the storing of its result. `CodeRaises(n, m)`: an
  // exception of the worker's own code, after n writes and, if those were all, m tasks.
  datatype Fault = NoFault | CallRaises | CodeRaises(writes: nat, tasks: nat)

  // `tasksAllowed`: the persona is active and has the alert_to_task capability. `versions`:
  // the persona versions that exist. `summaryFits`: the job summary's rows, if it has any,
  // name a target that exists and can be stored.
  datatype Context = Context(tasksAllowed: bool, versions: set<int>, summaryFits: bool, fault: Fault)

  datatype Response = Response(
    ok: bool, writes: seq<ProposedWrite>, tasks: seq<ProposedTask>, context: Context)
  {
    // An exception comes before the last of the writes.
    predicate StopsAtWrites() {
      context.fault.CodeRaises? && context.fault.writes < |writes|
    }

    // The writes and the tasks that are reached if nothing before them is refused or lost.
    function ReachedWrites(): seq<ProposedWrite> {
      if StopsAtWrites() then writes[..context.fault.writes] else writes
    }

    function ReachedTasks(): seq<ProposedTask> {
      if context.fault.CodeRaises? && context.fault.tasks < |tasks| then tasks[..context.fault.tasks] else tasks
    }
  }

  datatype Entity = Entity(kind: string, ref: Option<string>, data: Doc, version: nat)
  datatype Action = Create | Update
  // An entity's id is its position in the entities table.
  datatype Event = Event(
    entity: nat, action: Action, before: Option<Doc>, after: Doc, diff: Doc, key: string)
  datatype Scope = EntityWrite | TaskCreation
  datatype KeyRow = KeyRow(key: string, scope: Scope, hash: string)
  datatype Db = Db(entities: seq<Entity>, events: seq<Event>, keys: seq<KeyRow>, tasks: seq<ProposedTask>)

  const EMPTY_DB := Db([], [], [], [])

  // A task that is neither succeeded nor failed keeps the status `running`
  // that was committed before the agent was called.
  datatype Status = Running | Succeeded | Failed
  datatype Outcome = Outcome(db: Db, status: Status)

  // The hash of a write's full payload (SHA-256 of its sorted JSON), and which writes and
  // tasks the columns can store (no NUL in a text, no text too long for its index).
  datatype Env = Env(
    hash: ProposedWrite -> string, writeFits: ProposedWrite -> bool, taskFits: ProposedTask -> bool)

  /******* Lookups *******/

  predicate UniqueKeys(keys: seq<KeyRow>) {
    forall i, j :: 0 <= i < j < |keys| ==> keys[i].key != keys[j].key
  }

  function FindKey(keys: seq<KeyRow>, key: string): (r: Option<KeyRow>)
    ensures r.Some? ==> r.value in keys && r.value.key == key
    ensures r.None? ==> forall row :: row in keys ==> row.key != key
  {
    if keys == [] then None
    else if keys[0].key == key then Some(keys[0])
    else FindKey(keys[1..], key)
  }

  datatype Verdict = Fresh | AlreadyApplied | Conflict

  function CheckIdempotency(keys: seq<KeyRow>, key: string, hash: string): Verdict {
    match FindKey(keys, key)
    case None => Fresh
    case Some(row) => if row.hash == hash then AlreadyApplied else Conflict
  }

  predicate Truthy(ref: Option<string>) {
    ref.Some? && ref.value != ""
  }

  predicate Matches(e: Entity, w: ProposedWrite) {
    Truthy(w.ref) && e.kind == w.kind && e.ref == w.ref
  }

  function FindEntity(entities: seq<Entity>, w: ProposedWrite): (r: Option<nat>)
    ensures r.Some? ==> r.value < |entities| && Matches(entities[r.value], w)
    ensures r.None? ==> forall e :: e in entities ==> !Matches(e, w)
  {
    if entities == [] then None
    else
      var n := |entities| - 1;
      match FindEntity(entities[..n], w)
      case Some(i) => Some(i)
      case None => if Matches(entities[n], w) then Some(n) else None
  }

  // The one allowed kind and its required fields; a field may be null.
  predicate ValidWrite(w: ProposedWrite) {
    && w.kind == "dns_record"
    && "name" in w.patch && "record_type" in w.patch && "value" in w.patch && "ttl" in w.patch
  }

  /******* One write *******/

  // An empty object is recorded as no object.
  function AsBefore(data: Doc): Option<Doc> {
    if data == map[] then None else Some(data)
  }

  function Upserted(entities: seq<Entity>, w: ProposedWrite): (seq<Entity>, Event) {
    match FindEntity(entities, w)
    case Some(i) =>
      var e := entities[i];
      var merged := Patched(e.data, w.patch);
      (entities[i := e.(data := merged, version := e.version + 1)],
       Event(i, Update, AsBefore(e.data), merged, w.patch, w.key))
    case None =>
      (entities + [Entity(w.kind, w.ref, w.patch, 1)],
       Event(|entities|, Create, None, w.patch, w.patch, w.key))
  }

  /******* The session *******/

  // `db` is what queries see; `events` and `keys` were added but not flushed.
  datatype Session = Session(db: Db, events: seq<Event>, keys: seq<KeyRow>)

  // Everything the session would commit, ignoring the unique index.
  function Full(s: Session): Db {
    s.db.(events := s.db.events + s.events, keys := s.db.keys + s.keys)
  }

  function Flushed(s: Session): Option<Session> {
    if UniqueKeys(Full(s).keys) then Some(Session(Full(s), [], [])) else None
  }

  datatype Step = Done(s: Session) | Rejected(s: Session) | Broken

  function ApplyWrite(env: Env, s: Session, w: ProposedWrite): Step {
    if !ValidWrite(w) then Rejected(s)
    else
      match CheckIdempotency(s.db.keys, w.key, env.hash(w))
      case Conflict => Rejected(s)
      case AlreadyApplied => Done(s)
      case Fresh =>
        var (entities, event) := Upserted(s.db.entities, w);
        var flushed := Flushed(s.(db := s.db.(entities := entities)));
        if flushed.None? || !env.writeFits(w) then Broken
        else Done(flushed.value.(events := [event], keys := [KeyRow(w.key, EntityWrite, env.hash(w))]))
  }

  function ApplyWrites(env: Env, s: Session, ws: seq<ProposedWrite>): Step
    decreases |ws|
  {
    if ws == [] then Done(s)
    else
      match ApplyWrite(env, s, ws[0])
      case Done(s') => ApplyWrites(env, s', ws[1..])
      case Rejected(s') => Rejected(s')
      case Broken => Broken
  }

  // The row fits, and the persona version it names, if any, exists.
  predicate Storable(env: Env, versions: set<int>, t: ProposedTask) {
    env.taskFits(t) && (t.personaVersion.Some? ==> t.personaVersion.value in versions)
  }

  function SpawnTask(env: Env, versions: set<int>, s: Session, t: ProposedTask): Step {
    if FindKey(s.db.keys, t.key).Some? then Done(s)
    else if !Storable(env, versions, t) then Broken
    else
      var added := s.(keys := s.keys + [KeyRow(t.key, TaskCreation, "")], db := s.db.(tasks := s.db.tasks + [t]));
      match Flushed(added)
      case None => Broken
      case Some(f) => Done(f)
  }

  function SpawnTasks(env: Env, versions: set<int>, s: Session, ts: seq<ProposedTask>): Step
    decreases |ts|
  {
    if ts == [] then Done(s)
    else
      match SpawnTask(env, versions, s, ts[0])
      case Done(s') => SpawnTasks(env, versions, s', ts[1..])
      case Rejected(s') => Rejected(s')
      case Broken => Broken
  }

  function ThenTasks(env: Env, step: Step, r: Response): Step {
    if !step.Done? || r.StopsAtWrites() || r.tasks == [] then step
    else if !r.context.tasksAllowed then Rejected(step.s)
    else SpawnTasks(env, r.context.versions, step.s, r.ReachedTasks())
  }

  // An exception of the worker's code is caught; the job summary comes last.
  function ThenSummary(step: Step, r: Response): Step {
    if !step.Done? then step
    else if r.context.fault.CodeRaises? then Rejected(step.s)
    else if !r.context.summaryFits then Broken
    else step
  }

  function Committed(db: Db, step: Step): Outcome {
    if step.Broken? || Flushed(step.s).None? then Outcome(db, Running)
    else Outcome(Flushed(step.s).value.db, if step.Done? then Succeeded else Failed)
  }

  function Handled(env: Env, s: Session, r: Response): Step {
    ThenSummary(ThenTasks(env, ApplyWrites(env, s, r.ReachedWrites()), r), r)
  }

  function Dispatched(env: Env, db: Db, r: Response): Outcome {
    if r.context.fault.CallRaises? || !r.ok then Outcome(db, Failed)
    else if r.writes == [] then Outcome(db, Succeeded)
    else Committed(db, Handled(env, Session(db, [], []), r))
  }

  /******* The worker *******/

  datatype Verb = Go | Refuse | Lost

  // The worker's session over the tables; `committed` is what others can read.
  class Worker {
    const env: Env
    var committed: Db
    var view: Db
    var newEvents: seq<Event>
    var newKeys: seq<KeyRow>
    var taskStatus: Status

    constructor (env: Env, db: Db)
      ensures this.env == env && committed == db
    {
      this.env := env;
      committed, view, newEvents, newKeys := db, db, [], [];
      taskStatus := Running;
    }

    ghost function State(): Session
      reads this
    {
      Session(view, newEvents, newKeys)
    }

    ghost predicate Reports(verb: Verb, step: Step)
      reads this
    {
      match step
      case Done(s) => verb == Go && State() == s
      case Rejected(s) => verb == Refuse && State() == s
      case Broken => verb == Lost
    }

    method Flush() returns (ok: bool)
      modifies this`view, this`newEvents, this`newKeys
      ensures ok == Flushed(old(State())).Some?
      ensures State() == if ok then Flushed(old(State())).value else old(State())
    {
      ok := UniqueKeys(view.keys + newKeys);
      if ok {
        view := view.(events := view.events + newEvents, keys := view.keys + newKeys);
        newEvents, newKeys := [], [];
      }
    }

    method Write(w: ProposedWrite) returns (verb: Verb)
      modifies this`view, this`newEvents, this`newKeys
      ensures Reports(verb, ApplyWrite(env, old(State()), w))
    {
      if !ValidWrite(w) {
        return Refuse;
      }
      var row := FindKey(view.keys, w.key);
      if row.Some? {
        return if row.value.hash == env.hash(w) then Go else Refuse;
      }
      if !env.writeFits(w) {
        return Lost;  // the database refuses a row no later than at the commit
      }
      var event;
      var found := FindEntity(view.entities, w);
      if found.Some? {
        var i := found.value;
        var e := view.entities[i];
        var merged := ApplyJsonMergePatch(e.data, w.patch);
        view := view.(entities := view.entities[i := e.(data := merged, version := e.version + 1)]);
        event := Event(i, Update, AsBefore(e.data), merged, w.patch, w.key);
      } else {
        event := Event(|view.entities|, Create, None, w.patch, w.patch, w.key);
        view := view.(entities := view.entities + [Entity(w.kind, w.ref, w.patch, 1)]);
      }
      var ok := Flush();
      if !ok {
        return Lost;
      }
      newEvents := newEvents + [event];
      newKeys := newKeys + [KeyRow(w.key, EntityWrite, env.hash(w))];
      return Go;
    }

    method Spawn(versions: set<int>, t: ProposedTask) returns (verb: Verb)
      modifies this`view, this`newEvents, this`newKeys
      ensures Reports(verb, SpawnTask(env, versions, old(State()), t))
    {
      if FindKey(view.keys, t.key).Some? {
        return Go;
      }
      if !Storable(env, versions, t) {
        return Lost;
      }
      newKeys := newKeys + [KeyRow(t.key, TaskCreation, "")];
      view := view.(tasks := view.tasks + [t]);
      var ok := Flush();
      return if ok then Go else Lost;
    }

    method WriteAll(ws: seq<ProposedWrite>) returns (verb: Verb)
      modifies this`view, this`newEvents, this`newKeys
      ensures Reports(verb, ApplyWrites(env, old(State()), ws))
    {
      verb := Go;
      var i := 0;
      while i < |ws| && verb == Go
        invariant 0 <= i <= |ws|
        invariant verb == Go ==> ApplyWrites(env, old(State()), ws) == ApplyWrites(env, State(), ws[i..])
        invariant verb != Go ==> Reports(verb, ApplyWrites(env, old(State()), ws))
      {
        verb := Write(ws[i]);
        assert ws[i..][1..] == ws[i + 1..];
        i := i + 1;
      }
    }

    method SpawnAll(versions: set<int>, ts: seq<ProposedTask>) returns (verb: Verb)
      modifies this`view, this`newEvents, this`newKeys
      ensures Reports(verb, SpawnTasks(env, versions, old(State()), ts))
    {
      verb := Go;
      var i := 0;
      while i < |ts| && verb == Go
        invariant 0 <= i <= |ts|
        invariant verb == Go ==>
          SpawnTasks(env, versions, old(State()), ts) == SpawnTasks(env, versions, State(), ts[i..])
        invariant verb != Go ==> Reports(verb, SpawnTasks(env, versions, old(State()), ts))
      {
        verb := Spawn(versions, ts[i]);
        assert ts[i..][1..] == ts[i + 1..];
        i := i + 1;
      }
    }

    // The writes, then the tasks, then the job summary.
    method Handle(r: Response) returns (verb: Verb)
      modifies this`view, this`newEvents, this`newKeys
      ensures Reports(verb, Handled(env, old(State()), r))
    {
      verb := WriteAll(r.ReachedWrites());
      if verb == Go && !r.StopsAtWrites() && r.tasks != [] {
        if !r.context.tasksAllowed {
          verb := Refuse;
        } else {
          verb := SpawnAll(r.context.versions, r.ReachedTasks());
        }
      }
      if verb == Go && r.context.fault.CodeRaises? {
        verb := Refuse;
      } else if verb == Go && !r.context.summaryFits {
        verb := Lost;
      }
    }

    method Dispatch(r: Response)
      modifies this
      ensures Outcome(committed, taskStatus) == Dispatched(env, old(committed), r)
    {
      taskStatus := Running;
      view, newEvents, newKeys := committed, [], [];
      if r.context.fault.CallRaises? || !r.ok {
        taskStatus := Failed;
        return;
      }
      if r.writes == [] {
        taskStatus := Succeeded;
        return;
      }
      var verb := Handle(r);
      if verb == Lost {
        return;
      }
      var ok := Flush();
      if ok {
        committed := view;
        taskStatus := if verb == Go then Succeeded else Failed;
      }
    }
  }
}
