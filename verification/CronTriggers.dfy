/** Who may create a run: the cron scheduler (apps/automation_agent/scheduler/cron.py),
    on any number of workers, and manual triggers
    (apps/automation_agent/api/automations.py), under the unique index on the run's
    idempotency key. */
module CronTriggers {
  import opened Wrappers

  /******* Cron keys *******/

  datatype RawMinute = RawMinute(year: nat, month: nat, day: nat, hour: nat, minute: nat)
  type Minute = m: RawMinute |
    1000 <= m.year < 10000 && m.month < 100 && m.day < 100 && m.hour < 100 && m.minute < 100
    witness RawMinute(2026, 1, 1, 0, 0)

  function Digit(n: nat): char
    requires n < 10
  {
    ['0', '1', '2', '3', '4', '5', '6', '7', '8', '9'][n]
  }

  function Two(n: nat): (s: string)
    requires n < 100
    ensures |s| == 2
  {
    [Digit(n / 10), Digit(n % 10)]
  }

  // %Y-%m-%d-%H-%M
  function TimeKey(m: Minute): (s: string)
    ensures |s| == 16
  {
    Two(m.year / 100) + (Two(m.year % 100) + ("-" + DayKey(m)))
  }

  // %m-%d-%H-%M
  function DayKey(m: Minute): (s: string)
    ensures |s| == 11
  {
    Two(m.month) + ("-" + (Two(m.day) + ("-" + ClockKey(m))))
  }

  // %H-%M
  function ClockKey(m: Minute): (s: string)
    ensures |s| == 5
  {
    Two(m.hour) + ("-" + Two(m.minute))
  }

  function CronKey(automation: string, m: Minute): string {
    "cron_" + automation + "_" + TimeKey(m)
  }

  lemma {:induction false} DigitInjective(a: nat, b: nat)
    requires a < 10 && b < 10 && Digit(a) == Digit(b)
    ensures a == b
  {
  }

  lemma {:induction false} TwoInjective(a: nat, b: nat)
    requires a < 100 && b < 100 && Two(a) == Two(b)
    ensures a == b
  {
    assert Two(a)[0] == Two(b)[0] && Two(a)[1] == Two(b)[1];
    DigitInjective(a / 10, b / 10);
    DigitInjective(a % 10, b % 10);
  }

  lemma {:induction false} SplitEqual(a: string, x: string, b: string, y: string)
    requires |a| == |b| && a + x == b + y
    ensures a == b && x == y
  {
    assert (a + x)[..|a|] == a && (b + y)[..|b|] == b;
    assert (a + x)[|a|..] == x && (b + y)[|b|..] == y;
  }

  // Two digits, a dash, and the rest.
  lemma {:induction false} DashedEqual(a: nat, x: string, b: nat, y: string)
    requires a < 100 && b < 100 && Two(a) + ("-" + x) == Two(b) + ("-" + y)
    ensures a == b && x == y
  {
    SplitEqual(Two(a), "-" + x, Two(b), "-" + y);
    SplitEqual("-", x, "-", y);
    TwoInjective(a, b);
  }

  lemma {:induction false} TimeKeyInjective(m: Minute, n: Minute)
    requires TimeKey(m) == TimeKey(n)
    ensures m == n
  {
    SplitEqual(Two(m.year / 100), Two(m.year % 100) + ("-" + DayKey(m)),
               Two(n.year / 100), Two(n.year % 100) + ("-" + DayKey(n)));
    TwoInjective(m.year / 100, n.year / 100);
    DashedEqual(m.year % 100, DayKey(m), n.year % 100, DayKey(n));
    DashedEqual(m.month, Two(m.day) + ("-" + ClockKey(m)), n.month, Two(n.day) + ("-" + ClockKey(n)));
    DashedEqual(m.day, ClockKey(m), n.day, ClockKey(n));
    DashedEqual(m.hour, Two(m.minute), n.hour, Two(n.minute));
    TwoInjective(m.minute, n.minute);
  }

  // A key names one automation and one minute, whatever characters the id is made of.
  lemma {:induction false} CronKeyInjective(a: string, m: Minute, b: string, n: Minute)
    requires CronKey(a, m) == CronKey(b, n)
    ensures a == b && m == n
  {
    var s, t := CronKey(a, m), CronKey(b, n);
    assert |s| == |a| + 22 && |t| == |b| + 22;
    assert s[5..5 + |a|] == a && t[5..5 + |b|] == b;
    assert s[6 + |a|..] == TimeKey(m) && t[6 + |b|..] == TimeKey(n);
    TimeKeyInjective(m, n);
  }

  /******* The run table *******/

  datatype Row = Row(key: string, automation: string)
  type SessionId = nat

  // A run's id is its position among the committed rows. Each open session has at most
  // one inserted row that is not committed yet.
  datatype State = State(rows: seq<Row>, open: map<SessionId, Row>)

  const INITIAL := State([], map[])

  // The unique index: an insert must wait while another session's insert of the key is
  // open, and fails once the key is committed.
  predicate MayInsert(s: State, sid: SessionId, key: string) {
    && sid !in s.open
    && (forall t :: t in s.open ==> s.open[t].key != key)
    && (forall i :: 0 <= i < |s.rows| ==> s.rows[i].key != key)
  }

  datatype Step =
    | Cron(sid: SessionId, automation: string, minute: Minute)
    | Manual(sid: SessionId, automation: string, key: string)
    | Commit(sid: SessionId)
    | Rollback(sid: SessionId)

  // Whether an automation's schedule has a firing time in a minute.
  type Schedule = (string, Minute) -> bool

  function KeyOf(step: Step): string
    requires step.Cron? || step.Manual?
  {
    if step.Cron? then CronKey(step.automation, step.minute) else step.key
  }

  predicate Enabled(schedule: Schedule, s: State, step: Step) {
    match step
    case Cron(sid, a, m) => schedule(a, m) && MayInsert(s, sid, KeyOf(step))
    case Manual(sid, a, key) => MayInsert(s, sid, key)
    case Commit(sid) => sid in s.open
    case Rollback(sid) => sid in s.open
  }

  function Next(s: State, step: Step): State
    requires step.Commit? || step.Rollback? ==> step.sid in s.open
  {
    match step
    case Cron(sid, a, m) => s.(open := s.open[sid := Row(KeyOf(step), a)])
    case Manual(sid, a, key) => s.(open := s.open[sid := Row(key, a)])
    case Commit(sid) => State(s.rows + [s.open[sid]], s.open - {sid})
    case Rollback(sid) => s.(open := s.open - {sid})
  }

  predicate IsRun(schedule: Schedule, s: State, steps: seq<Step>)
    decreases |steps|
  {
    steps != [] ==> Enabled(schedule, s, steps[0]) && IsRun(schedule, Next(s, steps[0]), steps[1..])
  }

  function After(schedule: Schedule, s: State, steps: seq<Step>): State
    requires IsRun(schedule, s, steps)
    decreases |steps|
  {
    if steps == [] then s else After(schedule, Next(s, steps[0]), steps[1..])
  }

  // The lookup a manual trigger starts with.
  function FindRun(rows: seq<Row>, key: string): (r: Option<nat>)
    ensures r.Some? ==> r.value < |rows| && rows[r.value].key == key
    ensures r.None? ==> forall i :: 0 <= i < |rows| ==> rows[i].key != key
  {
    if rows == [] then None
    else
      var n := |rows| - 1;
      match FindRun(rows[..n], key)
      case Some(i) => Some(i)
      case None => if rows[n].key == key then Some(n) else None
  }

  /******* One scheduler pass, one manual trigger *******/

  // What one pass over the automations adds when no other session is at work: the cron run
  // of each automation that is due, unless it exists or `raises` for it.
  function Ticked(schedule: Schedule, rows: seq<Row>, due: seq<string>, now: Minute, raises: set<string>): seq<Row> {
    if due == [] then rows
    else
      var n := |due| - 1;
      var before := Ticked(schedule, rows, due[..n], now, raises);
      var key := CronKey(due[n], now);
      if schedule(due[n], now) && due[n] !in raises && FindRun(before, key).None?
      then before + [Row(key, due[n])] else before
  }

  class RunTable {
    const schedule: Schedule
    var rows: seq<Row>

    constructor (schedule: Schedule)
      ensures this.schedule == schedule && rows == []
    {
      this.schedule, rows := schedule, [];
    }

    // The insert fails on a key that is taken, and the row is rolled back.
    method CreateRun(key: string, automation: string) returns (ok: bool)
      modifies this`rows
      ensures ok <==> FindRun(old(rows), key).None?
      ensures rows == if ok then old(rows) + [Row(key, automation)] else old(rows)
    {
      ok := FindRun(rows, key).None?;
      if ok {
        rows := rows + [Row(key, automation)];
      }
    }

    method CheckCronSchedules(automations: seq<string>, now: Minute, raises: set<string>)
      modifies this`rows
      ensures rows == Ticked(schedule, old(rows), automations, now, raises)
    {
      for i := 0 to |automations|
        invariant rows == Ticked(schedule, old(rows), automations[..i], now, raises)
      {
        var a := automations[i];
        assert automations[..i + 1][..i] == automations[..i];
        if a !in raises && schedule(a, now) {
          var _ := CreateRun(CronKey(a, now), a);
        }
      }
      assert automations[..|automations|] == automations;
    }

    // Returns the run that has the key, a new one if there was none.
    method TriggerRun(automation: string, key: string) returns (run: nat)
      modifies this`rows
      ensures FindRun(rows, key) == Some(run)
      ensures rows == if FindRun(old(rows), key).Some? then old(rows) else old(rows) + [Row(key, automation)]
    {
      var existing := FindRun(rows, key);
      if existing.Some? {
        return existing.value;
      }
      run := |rows|;
      rows := rows + [Row(key, automation)];
      assert rows[..run] == old(rows);
    }
  }

  // A pass is a run of the machine: insert and commit, automation by automation.
  lemma {:induction false} TickIsRun(
    schedule: Schedule, rows: seq<Row>, due: seq<string>, now: Minute, raises: set<string>)
    returns (steps: seq<Step>)
    ensures IsRun(schedule, State(rows, map[]), steps)
    ensures After(schedule, State(rows, map[]), steps) == State(Ticked(schedule, rows, due, now, raises), map[])
    ensures forall i :: 0 <= i < |steps| ==> !steps[i].Manual?
  {
    if due == [] {
      steps := [];
    } else {
      var front, a := due[..|due| - 1], due[|due| - 1];
      var before := Ticked(schedule, rows, front, now, raises);
      steps := TickIsRun(schedule, rows, front, now, raises);
      if schedule(a, now) && a !in raises && FindRun(before, CronKey(a, now)).None? {
        var insert := CronInserts(schedule, before, a, now);
        RunsJoin(schedule, State(rows, map[]), steps, insert);
        steps := steps + insert;
      }
    }
  }

  lemma {:induction false} CronInserts(
    schedule: Schedule, rows: seq<Row>, a: string, now: Minute) returns (steps: seq<Step>)
    requires schedule(a, now) && FindRun(rows, CronKey(a, now)).None?
    ensures IsRun(schedule, State(rows, map[]), steps)
    ensures After(schedule, State(rows, map[]), steps) == State(rows + [Row(CronKey(a, now), a)], map[])
    ensures forall i :: 0 <= i < |steps| ==> !steps[i].Manual?
  {
    steps := [Cron(0, a, now), Commit(0)];
    assert steps[1..] == [Commit(0)] && steps[1..][1..] == [];
    var s1 := Next(State(rows, map[]), steps[0]);
    assert Next(s1, Commit(0)) == State(rows + [Row(CronKey(a, now), a)], map[]);
    assert IsRun(schedule, s1, [Commit(0)]);
  }

  lemma {:induction false} ConsFirst(a: seq<Step>, b: seq<Step>)
    requires a != []
    ensures a + b == [a[0]] + (a[1..] + b)
  {
  }

  lemma {:induction false} RunCons(schedule: Schedule, s: State, step: Step, rest: seq<Step>)
    requires Enabled(schedule, s, step) && IsRun(schedule, Next(s, step), rest)
    ensures IsRun(schedule, s, [step] + rest)
    ensures After(schedule, s, [step] + rest) == After(schedule, Next(s, step), rest)
  {
    assert ([step] + rest)[1..] == rest;
  }

  lemma {:induction false} RunsJoin(schedule: Schedule, s: State, a: seq<Step>, b: seq<Step>)
    requires IsRun(schedule, s, a) && IsRun(schedule, After(schedule, s, a), b)
    ensures IsRun(schedule, s, a + b) && After(schedule, s, a + b) == After(schedule, After(schedule, s, a), b)
    decreases |a|
  {
    if a == [] {
      assert a + b == b;
    } else {
      RunsJoin(schedule, Next(s, a[0]), a[1..], b);
      RunCons(schedule, s, a[0], a[1..] + b);
      ConsFirst(a, b);
    }
  }

  lemma {:induction false} FindRunPrefix(rows: seq<Row>, later: seq<Row>, key: string)
    requires rows <= later && FindRun(rows, key).Some?
    ensures FindRun(later, key) == FindRun(rows, key)
    decreases |later|
  {
    if |rows| < |later| {
      FindRunPrefix(rows, later[..|later| - 1], key);
    } else {
      assert rows == later;
    }
  }

  // A pass leaves a run for every due automation that it does not raise for.
  lemma {:induction false} TickCovers(
    schedule: Schedule, rows: seq<Row>, due: seq<string>, now: Minute, raises: set<string>, a: string)
    ensures var once := Ticked(schedule, rows, due, now, raises);
            && rows <= once
            && (a in due && schedule(a, now) && a !in raises ==> FindRun(once, CronKey(a, now)).Some?)
  {
    if due != [] {
      var n := |due| - 1;
      TickCovers(schedule, rows, due[..n], now, raises, a);
      var before, once := Ticked(schedule, rows, due[..n], now, raises), Ticked(schedule, rows, due, now, raises);
      assert a in due ==> a in due[..n] || a == due[n];
      if FindRun(before, CronKey(a, now)).Some? {
        FindRunPrefix(before, once, CronKey(a, now));
      } else if a == due[n] && once != before {
        assert once[..|before|] == before;
      }
    }
  }

  // A pass adds nothing exactly if every due automation that it does not raise for has its
  // run already.
  lemma {:induction false} TickAddsNothingIff(
    schedule: Schedule, rows: seq<Row>, due: seq<string>, now: Minute, raises: set<string>)
    ensures Ticked(schedule, rows, due, now, raises) == rows
       <==> forall a :: a in due && schedule(a, now) && a !in raises ==> FindRun(rows, CronKey(a, now)).Some?
  {
    if Ticked(schedule, rows, due, now, raises) == rows {
      forall a | a in due && schedule(a, now) && a !in raises
        ensures FindRun(rows, CronKey(a, now)).Some?
      {
        TickCovers(schedule, rows, due, now, raises, a);
      }
    } else if forall a :: a in due && schedule(a, now) && a !in raises ==> FindRun(rows, CronKey(a, now)).Some? {
      TickSkips(schedule, rows, due, now, raises);
    }
  }

  // A second pass in the same minute, whatever was added in between, adds nothing exactly if
  // the automations that the first one raised for, and it does not, have runs by now.
  lemma {:induction false} TickTwice(
    schedule: Schedule, rows: seq<Row>, due: seq<string>, now: Minute,
    raises: set<string>, later: seq<Row>, again: set<string>)
    requires Ticked(schedule, rows, due, now, raises) <= later
    ensures Ticked(schedule, later, due, now, again) == later
       <==> forall a :: a in due && schedule(a, now) && a in raises - again ==> FindRun(later, CronKey(a, now)).Some?
  {
    TickAddsNothingIff(schedule, later, due, now, again);
    forall a | a in due && schedule(a, now) && a !in raises
      ensures FindRun(later, CronKey(a, now)).Some?
    {
      TickCovers(schedule, rows, due, now, raises, a);
      FindRunPrefix(Ticked(schedule, rows, due, now, raises), later, CronKey(a, now));
    }
  }

  lemma {:induction false} TickSkips(
    schedule: Schedule, rows: seq<Row>, due: seq<string>, now: Minute, raises: set<string>)
    requires forall a :: a in due && schedule(a, now) && a !in raises ==> FindRun(rows, CronKey(a, now)).Some?
    ensures Ticked(schedule, rows, due, now, raises) == rows
  {
    if due != [] {
      assert due[|due| - 1] in due;
      TickSkips(schedule, rows, due[..|due| - 1], now, raises);
    }
  }

  /******* Uniqueness *******/

  ghost predicate Inv(s: State) {
    && (forall i, j :: 0 <= i < j < |s.rows| ==> s.rows[i].key != s.rows[j].key)
    && (forall i, t :: 0 <= i < |s.rows| && t in s.open ==> s.rows[i].key != s.open[t].key)
    && (forall t, u :: t in s.open && u in s.open && t != u ==> s.open[t].key != s.open[u].key)
  }

  // A row under a cron key is for that key's automation, in a minute its schedule matches.
  ghost predicate Scheduled(schedule: Schedule, row: Row) {
    forall a, m :: row.key == CronKey(a, m) ==> row.automation == a && schedule(a, m)
  }

  ghost predicate AllScheduled(schedule: Schedule, s: State) {
    && (forall i :: 0 <= i < |s.rows| ==> Scheduled(schedule, s.rows[i]))
    && (forall t :: t in s.open ==> Scheduled(schedule, s.open[t]))
  }

  // Which automation may be triggered by hand under which key.
  type Policy = (string, string) -> bool

  ghost predicate Follows(allowed: Policy, steps: seq<Step>) {
    forall i :: 0 <= i < |steps| && steps[i].Manual? ==> allowed(steps[i].automation, steps[i].key)
  }

  // A cron key is allowed only for its own automation, in a minute that its schedule matches.
  // A policy that keeps out of the cron namespace altogether is one of these.
  ghost predicate Harmless(schedule: Schedule, allowed: Policy) {
    forall a, m, b :: allowed(b, CronKey(a, m)) ==> b == a && schedule(a, m)
  }

  lemma {:induction false} RunKeeps(schedule: Schedule, s: State, steps: seq<Step>)
    requires Inv(s) && IsRun(schedule, s, steps)
    ensures Inv(After(schedule, s, steps)) && s.rows <= After(schedule, s, steps).rows
    decreases |steps|
  {
    if steps != [] {
      RunKeeps(schedule, Next(s, steps[0]), steps[1..]);
    }
  }

  lemma {:induction false} RunKeepsSchedule(schedule: Schedule, allowed: Policy, s: State, steps: seq<Step>)
    requires AllScheduled(schedule, s) && IsRun(schedule, s, steps)
    requires Harmless(schedule, allowed) && Follows(allowed, steps)
    ensures AllScheduled(schedule, After(schedule, s, steps))
    decreases |steps|
  {
    if steps != [] {
      var t := Next(s, steps[0]);
      match steps[0] {
        case Cron(sid, a, m) =>
          forall b, n | CronKey(a, m) == CronKey(b, n) ensures a == b && schedule(b, n) {
            CronKeyInjective(a, m, b, n);
          }
          assert Scheduled(schedule, t.open[sid]);
        case _ =>
      }
      RunKeepsSchedule(schedule, allowed, t, steps[1..]);
    }
  }

  // Over any interleaving of scheduler ticks on any number of workers with manual triggers:
  // at most one run per automation and minute; and if the triggers are harmless, it is a run
  // of that automation, and there is none for a minute that its schedule does not match.
  lemma {:induction false} CronRunsAreUnique(schedule: Schedule, steps: seq<Step>, a: string, m: Minute)
    requires IsRun(schedule, INITIAL, steps)
    ensures var rows := After(schedule, INITIAL, steps).rows;
      forall i, j :: 0 <= i < j < |rows| ==> !(rows[i].key == rows[j].key == CronKey(a, m))
  {
    RunKeeps(schedule, INITIAL, steps);
  }

  ghost predicate RowsScheduled(schedule: Schedule, rows: seq<Row>) {
    forall i :: 0 <= i < |rows| ==> Scheduled(schedule, rows[i])
  }

  // That holds of every run under a policy exactly when the policy is harmless.
  lemma {:induction false} ScheduledIffHarmless(schedule: Schedule, allowed: Policy)
    ensures (forall steps :: IsRun(schedule, INITIAL, steps) && Follows(allowed, steps) ==>
               RowsScheduled(schedule, After(schedule, INITIAL, steps).rows))
       <==> Harmless(schedule, allowed)
  {
    if Harmless(schedule, allowed) {
      forall steps | IsRun(schedule, INITIAL, steps) && Follows(allowed, steps)
        ensures RowsScheduled(schedule, After(schedule, INITIAL, steps).rows)
      {
        RunKeepsSchedule(schedule, allowed, INITIAL, steps);
      }
    } else {
      var a, m, b :| allowed(b, CronKey(a, m)) && !(b == a && schedule(a, m));
      var steps := ManualRun(schedule, b, CronKey(a, m));
      assert !Scheduled(schedule, After(schedule, INITIAL, steps).rows[0]);
    }
  }

  lemma {:induction false} ManualRun(schedule: Schedule, b: string, key: string) returns (steps: seq<Step>)
    ensures IsRun(schedule, INITIAL, steps) && After(schedule, INITIAL, steps) == State([Row(key, b)], map[])
    ensures steps == [Manual(0, b, key), Commit(0)]
  {
    steps := [Manual(0, b, key), Commit(0)];
    assert steps[1..] == [Commit(0)] && steps[1..][1..] == [];
    var s1 := Next(INITIAL, steps[0]);
    assert Next(s1, Commit(0)) == State([Row(key, b)], map[]);
    assert IsRun(schedule, Next(s1, Commit(0)), []);
    assert IsRun(schedule, s1, [Commit(0)]);
  }

  // Once a key's run is committed, every later lookup of the key returns that run, and no
  // insert of the key is possible again.
  lemma {:induction false} TriggerIsIdempotent(schedule: Schedule, before: seq<Step>, steps: seq<Step>, i: nat)
    requires IsRun(schedule, INITIAL, before)
    requires IsRun(schedule, After(schedule, INITIAL, before), steps)
    requires i < |After(schedule, INITIAL, before).rows|
    ensures var s := After(schedule, INITIAL, before);
      var t := After(schedule, s, steps);
      FindRun(t.rows, s.rows[i].key) == Some(i) && forall sid :: !MayInsert(t, sid, s.rows[i].key)
  {
    RunKeeps(schedule, INITIAL, before);
    var s := After(schedule, INITIAL, before);
    RunKeeps(schedule, s, steps);
    var t := After(schedule, s, steps);
    assert t.rows[i] == s.rows[i];
  }

  // What a harmful policy costs: once a trigger of another automation has taken a cron key,
  // for any automation and any minute, the scheduled run is never created.
  lemma {:induction false} ManualKeyPreemptsCron(
    schedule: Schedule, a: string, m: Minute, b: string) returns (steps: seq<Step>)
    requires a != b
    ensures IsRun(schedule, INITIAL, steps)
    ensures var s := After(schedule, INITIAL, steps);
      && s.rows == [Row(CronKey(a, m), b)]
      && forall later, sid ::
           IsRun(schedule, s, later) ==> !Enabled(schedule, After(schedule, s, later), Cron(sid, a, m))
  {
    steps := ManualRun(schedule, b, CronKey(a, m));
    var s := After(schedule, INITIAL, steps);
    forall later, sid | IsRun(schedule, s, later)
      ensures !Enabled(schedule, After(schedule, s, later), Cron(sid, a, m))
    {
      TriggerIsIdempotent(schedule, steps, later, 0);
    }
  }

  /******* The key in full *******/

  // The number that two digits spell.
  function Number(a: char, b: char): int {
    (a as int - '0' as int) * 10 + (b as int - '0' as int)
  }

  lemma {:induction false} TwoReads(n: nat)
    requires n < 100
    ensures Two(n)[0] in "0123456789" && Two(n)[1] in "0123456789" && Number(Two(n)[0], Two(n)[1]) == n
  {
    DigitReads(n / 10);
    DigitReads(n % 10);
  }

  lemma {:induction false} DigitReads(n: nat)
    requires n < 10
    ensures Digit(n) in "0123456789" && Digit(n) as int - '0' as int == n
  {
  }

  // YYYY-MM-DD-HH-MM
  lemma {:induction false} TimeKeyReads(m: Minute)
    ensures var s := TimeKey(m);
      && s[4] == s[7] == s[10] == s[13] == '-'
      && Number(s[0], s[1]) * 100 + Number(s[2], s[3]) == m.year
      && Number(s[5], s[6]) == m.month && Number(s[8], s[9]) == m.day
      && Number(s[11], s[12]) == m.hour && Number(s[14], s[15]) == m.minute
  {
    TwoReads(m.year / 100);
    TwoReads(m.year % 100);
    TwoReads(m.month);
    TwoReads(m.day);
    TwoReads(m.hour);
    TwoReads(m.minute);
  }

  // cron_<automation>_<minute>
  lemma {:induction false} CronKeyReads(a: string, m: Minute)
    ensures var s, n := CronKey(a, m), |a|;
      |s| == n + 22 && s[..5] == "cron_" && s[5..5 + n] == a && s[5 + n] == '_' && s[6 + n..] == TimeKey(m)
  {
  }
}
