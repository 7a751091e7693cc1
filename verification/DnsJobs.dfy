/** DNS upsert jobs (apps/dns_agent/jobs/runner.py): a local transaction that a
    failed attempt rolls back, beside a provider whose changes stay. */
module DnsJobs {
  import opened Wrappers

  datatype Key = Key(recordType: string, name: string)
  type Tags = map<string, string>

  // One entry of a job's payload; absent members are None.
  datatype Record = Record(
    key: Key, value: string, ttl: Option<int>, priority: Option<int>, tags: Option<Tags>)
  {
    function Ttl(): int {
      if ttl.Some? then ttl.value else 300
    }
  }

  // The provider lists its records in a fixed order and never reuses an id, so a
  // record's id is its position. A key may have several provider records.
  datatype ProviderRecord = ProviderRecord(key: Key, value: string, ttl: int, priority: Option<int>)
  type Provider = seq<ProviderRecord>

  // The local table, by its unique (zone, type, name) index, for one zone.
  datatype LocalRecord = LocalRecord(
    value: string, ttl: int, priority: Option<int>, tags: Tags, providerId: Option<nat>)
  type Local = map<Key, LocalRecord>

  datatype World = World(provider: Provider, local: Local)

  /******* One record *******/

  // The first provider record of the key.
  function FindRecord(p: Provider, key: Key): (r: Option<nat>)
    ensures r.Some? ==> r.value < |p| && p[r.value].key == key && First(p, r.value)
    ensures r.None? ==> forall i :: 0 <= i < |p| ==> p[i].key != key
  {
    if p == [] then None
    else
      var n := |p| - 1;
      match FindRecord(p[..n], key)
      case Some(i) => Some(i)
      case None => if p[n].key == key then Some(n) else None
  }

  predicate First(p: Provider, i: nat)
    requires i < |p|
  {
    forall j :: 0 <= j < i ==> p[j].key != p[i].key
  }

  // PATCH: a priority that is not sent stays.
  function PatchedBy(r: ProviderRecord, rec: Record): ProviderRecord {
    r.(value := rec.value, ttl := rec.Ttl(), priority := if rec.priority.Some? then rec.priority else r.priority)
  }

  function ProviderUpsert(p: Provider, rec: Record): (Provider, nat) {
    match FindRecord(p, rec.key)
    case Some(i) => (p[i := PatchedBy(p[i], rec)], i)
    case None => (p + [ProviderRecord(rec.key, rec.value, rec.Ttl(), rec.priority)], |p|)
  }

  function LocalUpsert(local: Local, rec: Record, id: nat): Local {
    local[rec.key := LocalRecord(rec.value, rec.Ttl(), rec.priority,
                                 if rec.tags.Some? then rec.tags.value else map[], Some(id))]
  }

  function Upserted(w: World, rec: Record): World {
    var (provider, id) := ProviderUpsert(w.provider, rec);
    World(provider, LocalUpsert(w.local, rec, id))
  }

  function Applied(w: World, recs: seq<Record>): World {
    if recs == [] then w
    else Upserted(Applied(w, recs[..|recs| - 1]), recs[|recs| - 1])
  }

  /******* The job *******/

  // An attempt raises after `done` provider upserts took effect (at most all of
  // them: then it is the bookkeeping or the commit that raised), or it commits.
  datatype Attempt = Raises(done: nat) | Commits

  function Attempted(w: World, recs: seq<Record>, a: Attempt): World {
    match a
    case Commits => Applied(w, recs)
    case Raises(done) => World(Applied(w, recs[..Min(done, |recs|)]).provider, w.local)
  }

  // The attempts are made in turn until one commits.
  function Job(w: World, recs: seq<Record>, schedule: seq<Attempt>): (World, bool)
    decreases |schedule|
  {
    if schedule == [] then (w, false)
    else if schedule[0] == Commits then (Attempted(w, recs, Commits), true)
    else Job(Attempted(w, recs, schedule[0]), recs, schedule[1..])
  }

  class Agent {
    var provider: Provider
    var local: Local

    constructor (w: World)
      ensures State() == w
    {
      provider, local := w.provider, w.local;
    }

    ghost function State(): World
      reads this
    {
      World(provider, local)
    }

    // Find, then PATCH or POST.
    method AdapterUpsert(rec: Record) returns (id: nat)
      modifies this`provider
      ensures (provider, id) == ProviderUpsert(old(provider), rec)
    {
      var existing := FindRecord(provider, rec.key);
      if existing.Some? {
        id := existing.value;
        var r := provider[id].(value := rec.value, ttl := rec.Ttl());
        if rec.priority.Some? {
          r := r.(priority := rec.priority);
        }
        provider := provider[id := r];
      } else {
        id := |provider|;
        provider := provider + [ProviderRecord(rec.key, rec.value, rec.Ttl(), rec.priority)];
      }
    }

    // `schedule` says how each of the allowed attempts will go.
    method RunUpsertJob(recs: seq<Record>, schedule: seq<Attempt>) returns (ok: bool)
      modifies this
      ensures (State(), ok) == Job(old(State()), recs, schedule)
    {
      ok := false;
      var attempt := 0;
      while attempt < |schedule| && !ok
        invariant 0 <= attempt <= |schedule|
        invariant ok ==> (State(), true) == Job(old(State()), recs, schedule)
        invariant !ok ==> Job(old(State()), recs, schedule) == Job(State(), recs, schedule[attempt..])
      {
        var outcome := schedule[attempt];
        ghost var start := State();
        var session := local;  // the transaction's view; dropped unless committed
        var i := 0;
        while i < |recs| && outcome != Raises(i)
          invariant 0 <= i <= |recs| && local == start.local
          invariant World(provider, session) == Applied(start, recs[..i])
          invariant outcome.Raises? ==> i <= outcome.done
        {
          var id := AdapterUpsert(recs[i]);
          session := LocalUpsert(session, recs[i], id);
          assert recs[..i + 1][..i] == recs[..i];
          i := i + 1;
        }
        assert recs[..|recs|] == recs;
        if outcome == Commits {
          local := session;
          ok := true;
        }
        assert State() == Attempted(start, recs, outcome);
        assert schedule[attempt..][0] == outcome && schedule[attempt..][1..] == schedule[attempt + 1..];
        attempt := attempt + 1;
      }
    }
  }

  /******* What applying a batch does, slot by slot *******/

  // The batch's records for one key, in order.
  function Of(recs: seq<Record>, key: Key): (r: seq<Record>)
    ensures forall rec :: rec in r <==> rec in recs && rec.key == key
  {
    if recs == [] then []
    else
      var n := |recs| - 1;
      Of(recs[..n], key) + if recs[n].key == key then [recs[n]] else []
  }

  function Folded(r: ProviderRecord, recs: seq<Record>): ProviderRecord {
    if recs == [] then r else PatchedBy(Folded(r, recs[..|recs| - 1]), recs[|recs| - 1])
  }

  /******* Laws of lookup *******/

  lemma {:induction false} FindAfterPatch(p: Provider, i: nat, r: ProviderRecord, key: Key)
    requires i < |p| && r.key == p[i].key
    ensures FindRecord(p[i := r], key) == FindRecord(p, key)
  {
    var n := |p| - 1;
    if i < n {
      assert p[i := r][..n] == p[..n][i := r];
      FindAfterPatch(p[..n], i, r, key);
    } else {
      assert p[i := r][..n] == p[..n];
    }
  }

  lemma {:induction false} FindAfterPost(p: Provider, r: ProviderRecord, key: Key)
    ensures FindRecord(p + [r], key)
         == if FindRecord(p, key).Some? then FindRecord(p, key) else if r.key == key then Some(|p|) else None
  {
    assert (p + [r])[..|p|] == p;
  }

  // A key that has a provider record keeps its first one; one that has none gets one
  // only from an upsert of that key.
  lemma {:induction false} FindAfterUpsert(p: Provider, rec: Record, key: Key)
    ensures var (q, id) := ProviderUpsert(p, rec);
      && FindRecord(q, key) == (if FindRecord(p, key).Some? then FindRecord(p, key)
                                else if rec.key == key then Some(|p|) else None)
      && FindRecord(q, rec.key) == Some(id)
  {
    match FindRecord(p, rec.key)
    case Some(i) =>
      FindAfterPatch(p, i, PatchedBy(p[i], rec), key);
      FindAfterPatch(p, i, PatchedBy(p[i], rec), rec.key);
    case None =>
      var r := ProviderRecord(rec.key, rec.value, rec.Ttl(), rec.priority);
      FindAfterPost(p, r, key);
      FindAfterPost(p, r, rec.key);
  }

  /******* What a batch does to one key *******/

  // Creating a record is patching a blank one.
  function BaseOf(p: Provider, key: Key): ProviderRecord {
    match FindRecord(p, key)
    case Some(i) => p[i]
    case None => ProviderRecord(key, "", 0, None)
  }

  lemma {:induction false} OfAppend(recs: seq<Record>, key: Key)
    requires recs != []
    ensures var n := |recs| - 1;
      Of(recs, key) == if recs[n].key == key then Of(recs[..n], key) + [recs[n]] else Of(recs[..n], key)
  {
  }

  lemma {:induction false} FoldedAppend(r: ProviderRecord, recs: seq<Record>, rec: Record)
    ensures Folded(r, recs + [rec]) == PatchedBy(Folded(r, recs), rec)
  {
    assert (recs + [rec])[..|recs|] == recs;
  }

  // The batch folds the key's own records, in order, into the key's first provider
  // record (a blank one if it had none), whatever the batch says of other keys.
  lemma {:induction false} KeyLaw(w: World, recs: seq<Record>, key: Key)
    ensures var p, q := w.provider, Applied(w, recs).provider;
      && (FindRecord(p, key).Some? ==> FindRecord(q, key) == FindRecord(p, key))
      && (FindRecord(q, key).Some? <==> FindRecord(p, key).Some? || Of(recs, key) != [])
      && BaseOf(q, key) == Folded(BaseOf(p, key), Of(recs, key))
  {
    if recs != [] {
      var init, rec := recs[..|recs| - 1], recs[|recs| - 1];
      var mid := Applied(w, init).provider;
      KeyLaw(w, init, key);
      OfAppend(recs, key);
      FindAfterUpsert(mid, rec, key);
      FoldedAppend(BaseOf(w.provider, key), Of(init, key), rec);
    }
  }

  // When every key of the batch has a provider record, nothing is appended and only
  // first records change.
  lemma {:induction false} PresentLaw(w: World, recs: seq<Record>, i: nat)
    requires forall rec :: rec in recs ==> FindRecord(w.provider, rec.key).Some?
    requires i < |w.provider|
    ensures var p, q := w.provider, Applied(w, recs).provider;
      && |q| == |p| && q[i].key == p[i].key
      && q[i] == if FindRecord(p, p[i].key) == Some(i) then Folded(p[i], Of(recs, p[i].key)) else p[i]
  {
    if recs != [] {
      var init, rec := recs[..|recs| - 1], recs[|recs| - 1];
      PresentLaw(w, init, i);
      KeyLaw(w, init, rec.key);
      OfAppend(recs, w.provider[i].key);
      FoldedAppend(w.provider[i], Of(init, w.provider[i].key), rec);
      assert rec in recs;
    }
  }

  /******* Folding twice *******/

  // One record with the effect of the whole list: the last value and ttl, and the last
  // priority that was sent.
  function LastPriority(recs: seq<Record>): Option<int> {
    if recs == [] then None
    else if recs[|recs| - 1].priority.Some? then recs[|recs| - 1].priority
    else LastPriority(recs[..|recs| - 1])
  }

  lemma {:induction false} FoldedIs(r: ProviderRecord, recs: seq<Record>)
    requires recs != []
    ensures var last := recs[|recs| - 1];
      Folded(r, recs) == ProviderRecord(r.key, last.value, last.Ttl(),
                           if LastPriority(recs).Some? then LastPriority(recs) else r.priority)
  {
    var init := recs[..|recs| - 1];
    if init != [] {
      FoldedIs(r, init);
    }
  }

  lemma {:induction false} FoldedTwice(r: ProviderRecord, recs: seq<Record>)
    ensures Folded(Folded(r, recs), recs) == Folded(r, recs)
  {
    if recs != [] {
      FoldedIs(r, recs);
      FoldedIs(Folded(r, recs), recs);
    }
  }

  // Replaying a batch at the provider changes nothing.
  lemma {:induction false} ReplayIsNoOp(w: World, recs: seq<Record>, local: Local)
    ensures var q := Applied(w, recs).provider; Applied(World(q, local), recs).provider == q
  {
    var q := Applied(w, recs).provider;
    var again := Applied(World(q, local), recs).provider;
    forall rec | rec in recs ensures FindRecord(q, rec.key).Some? {
      KeyLaw(w, recs, rec.key);
      assert rec in Of(recs, rec.key);
    }
    if q != [] {
      PresentLaw(World(q, local), recs, 0);
    }
    forall i | 0 <= i < |q| ensures again[i] == q[i] {
      PresentLaw(World(q, local), recs, i);
      KeyLaw(w, recs, q[i].key);
      FoldedTwice(BaseOf(w.provider, q[i].key), Of(recs, q[i].key));
    }
  }

  /******* Retries *******/

  lemma {:induction false} AppliedSnoc(w: World, recs: seq<Record>, rec: Record)
    ensures Applied(w, recs + [rec]) == Upserted(Applied(w, recs), rec)
  {
    assert (recs + [rec])[..|recs|] == recs;
  }

  lemma {:induction false} AppendStep(w: World, mid: World, front: seq<Record>, init: seq<Record>, last: Record)
    requires Applied(w, front) == Applied(mid, init)
    ensures Applied(w, front + [last]) == Applied(mid, init + [last])
  {
    AppliedSnoc(w, front, last);
    AppliedSnoc(mid, init, last);
  }

  lemma {:induction false} Regroup(recs: seq<Record>, init: seq<Record>, last: Record)
    ensures recs + (init + [last]) == (recs + init) + [last]
  {
  }

  lemma {:induction false} AppliedAppend(w: World, recs: seq<Record>, more: seq<Record>)
    ensures Applied(w, recs + more) == Applied(Applied(w, recs), more)
  {
    if more == [] {
      assert recs + more == recs;
    } else {
      var init, last := more[..|more| - 1], more[|more| - 1];
      AppliedAppend(w, recs, init);
      AppendStep(w, Applied(w, recs), recs + init, init, last);
      Regroup(recs, init, last);
      assert more == init + [last];
    }
  }

  lemma {:induction false} ProviderIgnoresLocal(p: Provider, a: Local, b: Local, recs: seq<Record>)
    ensures Applied(World(p, a), recs).provider == Applied(World(p, b), recs).provider
  {
    if recs != [] {
      ProviderIgnoresLocal(p, a, b, recs[..|recs| - 1]);
    }
  }

  // What one upsert does to the table: it writes its own row, with the id of the key's
  // provider record, and no other; nor does it move another key's provider record.
  lemma {:induction false} LocalAfterUpsert(w: World, rec: Record, key: Key)
    ensures var d := Upserted(w, rec);
      if rec.key == key then
        && FindRecord(d.provider, key).Some?
        && key in d.local && d.local[key] == RowOf(rec, FindRecord(d.provider, key))
      else
        && (key in d.local <==> key in w.local) && (key in w.local ==> d.local[key] == w.local[key])
        && FindRecord(d.provider, key) == FindRecord(w.provider, key)
  {
    FindAfterUpsert(w.provider, rec, key);
  }

  function RowOf(rec: Record, id: Option<nat>): LocalRecord {
    LocalRecord(rec.value, rec.Ttl(), rec.priority, if rec.tags.Some? then rec.tags.value else map[], id)
  }

  lemma {:induction false} LocalLaw(w: World, recs: seq<Record>, key: Key)
    ensures var own, d := Of(recs, key), Applied(w, recs);
      if own == [] then (key in d.local <==> key in w.local) && (key in w.local ==> d.local[key] == w.local[key])
      else
        && FindRecord(d.provider, key).Some?
        && key in d.local
        && d.local[key] == RowOf(own[|own| - 1], FindRecord(d.provider, key))
  {
    if recs != [] {
      var init, rec := recs[..|recs| - 1], recs[|recs| - 1];
      LocalLaw(w, init, key);
      OfAppend(recs, key);
      LocalAfterUpsert(Applied(w, init), rec, key);
    }
  }

  // A failed attempt, however far it got, is absorbed by the next full one.
  lemma {:induction false} AttemptAbsorbed(w: World, recs: seq<Record>, n: nat)
    requires n <= |recs|
    ensures Applied(World(Applied(w, recs[..n]).provider, w.local), recs) == Applied(w, recs)
  {
    assert recs == recs[..n] + recs[n..];
    PartAbsorbed(w, recs[..n], recs[n..]);
  }

  lemma {:induction false} PartAbsorbed(w: World, done: seq<Record>, rest: seq<Record>)
    ensures Applied(World(Applied(w, done).provider, w.local), done + rest) == Applied(w, done + rest)
  {
    var part := Applied(w, done);
    var start := World(part.provider, w.local);
    var redo := Applied(start, done);
    AppliedAppend(w, done, rest);
    AppliedAppend(start, done, rest);
    ReplayIsNoOp(w, done, w.local);
    ProviderIgnoresLocal(part.provider, part.local, redo.local, rest);
    SameLocal(start, w, done + rest);
  }

  // The table after a batch depends on the table before and the provider after.
  lemma {:induction false} SameLocal(v: World, w: World, recs: seq<Record>)
    requires v.local == w.local && Applied(v, recs).provider == Applied(w, recs).provider
    ensures Applied(v, recs) == Applied(w, recs)
  {
    var a, b := Applied(v, recs).local, Applied(w, recs).local;
    forall key
      ensures (key in a <==> key in b) && (key in a ==> a[key] == b[key])
    {
      LocalLaw(v, recs, key);
      LocalLaw(w, recs, key);
    }
    assert a == b;
  }

  // Whatever happened to the earlier attempts, a job that succeeds leaves the provider
  // and the local table as one clean run does; one that fails leaves the local table as
  // it was, and a later clean run still ends where it would have ended.
  lemma {:induction false} RetryRefinement(w: World, recs: seq<Record>, schedule: seq<Attempt>)
    ensures var (d, ok) := Job(w, recs, schedule);
      && (ok <==> Commits in schedule)
      && (ok ==> d == Applied(w, recs))
      && (!ok ==> d.local == w.local && Applied(d, recs) == Applied(w, recs))
    decreases |schedule|
  {
    if schedule != [] && schedule[0] != Commits {
      AttemptAbsorbed(w, recs, Min(schedule[0].done, |recs|));
      RetryRefinement(Attempted(w, recs, schedule[0]), recs, schedule[1..]);
    }
  }

  // After a successful job the key's first provider record has the local value and ttl.
  // Its priority may differ, because a PATCH without priority leaves the old one: they
  // agree exactly when the last record for the key sent a priority, or none ever did.
  lemma {:induction false} JobAgreesWithProvider(w: World, recs: seq<Record>, schedule: seq<Attempt>, key: Key)
    requires Commits in schedule && Of(recs, key) != []
    ensures var (d, _) := Job(w, recs, schedule);
      var own := Of(recs, key);
      && key in d.local && FindRecord(d.provider, key).Some?
      && d.local[key].providerId == FindRecord(d.provider, key)
      && var remote := d.provider[FindRecord(d.provider, key).value];
         && remote.value == d.local[key].value == own[|own| - 1].value
         && remote.ttl == d.local[key].ttl == own[|own| - 1].Ttl()
         && remote.priority == (if LastPriority(own).Some? then LastPriority(own) else BaseOf(w.provider, key).priority)
         && (remote.priority == d.local[key].priority
             <==> own[|own| - 1].priority.Some?
                  || (LastPriority(own).None? && BaseOf(w.provider, key).priority.None?))
  {
    RetryRefinement(w, recs, schedule);
    LocalLaw(w, recs, key);
    KeyLaw(w, recs, key);
    FoldedIs(BaseOf(w.provider, key), Of(recs, key));
  }

  /******* In terms of the batch's records *******/

  // The batch's last record of a key.
  predicate LastOf(recs: seq<Record>, i: nat)
    requires i < |recs|
  {
    forall j :: i < j < |recs| ==> recs[j].key != recs[i].key
  }

  lemma {:induction false} OwnLast(recs: seq<Record>, i: nat)
    requires i < |recs| && LastOf(recs, i)
    ensures var own := Of(recs, recs[i].key); own != [] && own[|own| - 1] == recs[i]
  {
    var n := |recs| - 1;
    var own, front := Of(recs, recs[i].key), Of(recs[..n], recs[i].key);
    OfAppend(recs, recs[i].key);
    if i < n {
      LastInFront(recs, i);
      OwnLast(recs[..n], i);
      assert own == front;
    } else {
      assert own == front + [recs[n]];
    }
  }

  lemma {:induction false} LastInFront(recs: seq<Record>, i: nat)
    requires i < |recs| - 1 && LastOf(recs, i)
    ensures var n := |recs| - 1; LastOf(recs[..n], i) && recs[..n][i] == recs[i] && recs[n].key != recs[i].key
  {
  }

  // A job that succeeds leaves each key's last record in the local row and in the key's first
  // provider record. A ttl that is absent is 300, absent tags are none, and an absent
  // priority is none in the local row.
  lemma {:induction false} LastRecordWins(w: World, recs: seq<Record>, schedule: seq<Attempt>, i: nat)
    requires Commits in schedule && i < |recs| && LastOf(recs, i)
    ensures var (d, rec) := (Job(w, recs, schedule).0, recs[i]);
      && rec.key in d.local
      && var row := d.local[rec.key];
         && row.value == rec.value
         && row.ttl == (match rec.ttl case None => 300 case Some(ttl) => ttl)
         && row.priority == rec.priority
         && row.tags == (match rec.tags case None => map[] case Some(tags) => tags)
         && exists j :: 0 <= j < |d.provider| && First(d.provider, j) && d.provider[j].key == rec.key
              && row.providerId == Some(j) && d.provider[j].value == row.value && d.provider[j].ttl == row.ttl
  {
    OwnLast(recs, i);
    JobAgreesWithProvider(w, recs, schedule, recs[i].key);
    RetryRefinement(w, recs, schedule);
    LocalLaw(w, recs, recs[i].key);
  }

  lemma {:induction false} NoneOf(recs: seq<Record>, key: Key)
    requires forall rec :: rec in recs ==> rec.key != key
    ensures Of(recs, key) == []
  {
    if recs != [] {
      NoneOf(recs[..|recs| - 1], key);
    }
  }

  // A local row that no record of the batch names is as it was.
  lemma {:induction false} OtherRowsStay(w: World, recs: seq<Record>, schedule: seq<Attempt>, key: Key)
    requires forall rec :: rec in recs ==> rec.key != key
    ensures var d := Job(w, recs, schedule).0;
      (key in d.local <==> key in w.local) && (key in w.local ==> d.local[key] == w.local[key])
  {
    RetryRefinement(w, recs, schedule);
    NoneOf(recs, key);
    LocalLaw(w, recs, key);
  }

  // What a failed attempt leaves behind: the local table as it was, and at the provider the
  // last record of each key among the upserts that had been made.
  lemma {:induction false} FailedAttemptIsVisible(w: World, recs: seq<Record>, done: nat, i: nat)
    requires i < done <= |recs| && LastOf(recs[..done], i)
    ensures var (d, ok) := Job(w, recs, [Raises(done)]);
      && !ok && d.local == w.local
      && exists j :: 0 <= j < |d.provider| && First(d.provider, j) && d.provider[j].key == recs[i].key
           && d.provider[j].value == recs[i].value
  {
    var part := recs[..done];
    assert part[i] == recs[i];
    OneFailure(w, recs, done);
    OwnLast(part, i);
    LastRecordWins(w, part, [Commits], i);
    RetryRefinement(w, part, [Commits]);
  }

  lemma {:induction false} OneFailure(w: World, recs: seq<Record>, done: nat)
    requires done <= |recs|
    ensures Job(w, recs, [Raises(done)]) == (World(Applied(w, recs[..done]).provider, w.local), false)
  {
    var d := Attempted(w, recs, Raises(done));
    assert [Raises(done)][1..] == [];
    assert Job(d, recs, []) == (d, false);
  }
}
