/** Drift detection and reconciliation (apps/dns_agent/api/sync.py). */
module DnsSync {
  import opened Wrappers
  import opened DnsJobs

  datatype Drift = Drift(key: Key, expected: string, actual: Option<string>)

  // The last provider record of the key, the one the map from key to record keeps.
  function LastRecord(p: Provider, key: Key): (r: Option<nat>)
    ensures r.Some? ==> r.value < |p| && p[r.value].key == key
    ensures r.Some? <==> FindRecord(p, key).Some?
  {
    if p == [] then None
    else if p[|p| - 1].key == key then Some(|p| - 1)
    else LastRecord(p[..|p| - 1], key)
  }

  lemma {:induction false} LastIsLast(p: Provider, key: Key)
    requires LastRecord(p, key).Some?
    ensures forall i :: LastRecord(p, key).value < i < |p| ==> p[i].key != key
  {
    var n := |p| - 1;
    if p[n].key != key {
      LastIsLast(p[..n], key);
      assert forall i :: 0 <= i < n ==> p[..n][i] == p[i];
    }
  }

  function ListedValue(p: Provider, key: Key): Option<string> {
    match LastRecord(p, key)
    case Some(i) => Some(p[i].value)
    case None => None
  }

  // No later record has the key.
  predicate IsLast(p: Provider, i: nat)
    requires i < |p|
  {
    forall j :: i < j < |p| ==> p[j].key != p[i].key
  }

  // The order in which the store lists the table's rows.
  ghost predicate Lists(order: seq<Key>, local: Local) {
    && (forall i, j :: 0 <= i < j < |order| ==> order[i] != order[j])
    && (forall key :: key in order <==> key in local)
  }

  ghost predicate Drifted(w: World, key: Key) {
    key in w.local && ListedValue(w.provider, key) != Some(w.local[key].value)
  }

  ghost predicate Reported(drift: seq<Drift>, key: Key) {
    exists i :: 0 <= i < |drift| && drift[i].key == key
  }

  ghost predicate EachOnce(drift: seq<Drift>) {
    forall i, j :: 0 <= i < j < |drift| ==> drift[i].key != drift[j].key
  }

  // Exactly the drifted keys, each once, with both values.
  ghost predicate IsDriftReport(w: World, drift: seq<Drift>) {
    && EachOnce(drift)
    && (forall key :: Drifted(w, key) <==> Reported(drift, key))
    && (forall i :: 0 <= i < |drift| ==>
          && drift[i].key in w.local
          && drift[i].expected == w.local[drift[i].key].value
          && drift[i].actual == ListedValue(w.provider, drift[i].key))
  }

  function FixOf(local: Local, key: Key): Record
    requires key in local
  {
    Record(key, local[key].value, Some(local[key].ttl), local[key].priority, None)
  }

  // The reconcile payload: the desired record of each drifted key; it carries no tags.
  ghost predicate IsFixFor(local: Local, drift: seq<Drift>, fix: seq<Record>) {
    && |fix| == |drift|
    && forall i :: 0 <= i < |fix| ==> drift[i].key in local && fix[i] == FixOf(local, drift[i].key)
  }

  function DriftOf(w: World, key: Key): Drift
    requires key in w.local
  {
    Drift(key, w.local[key].value, ListedValue(w.provider, key))
  }

  // The report on the keys of `seen`, which are all different, in their order.
  ghost predicate ReportsOn(w: World, seen: seq<Key>, drift: seq<Drift>) {
    && (forall d :: d in drift <==> d.key in seen && Drifted(w, d.key) && d == DriftOf(w, d.key))
    && EachOnce(drift)
  }

  lemma {:induction false} ReportStep(w: World, seen: seq<Key>, drift: seq<Drift>, key: Key)
    requires ReportsOn(w, seen, drift) && key !in seen && key in w.local
    ensures ReportsOn(w, seen + [key], if Drifted(w, key) then drift + [DriftOf(w, key)] else drift)
  {
    assert forall k :: 0 <= k < |drift| ==> drift[k] in drift;
  }

  lemma {:induction false} FullReport(w: World, order: seq<Key>, drift: seq<Drift>)
    requires Lists(order, w.local) && ReportsOn(w, order, drift)
    ensures IsDriftReport(w, drift)
  {
    assert forall k :: 0 <= k < |drift| ==> drift[k] in drift;
    forall key | Drifted(w, key)
      ensures Reported(drift, key)
    {
      assert DriftOf(w, key) in drift;
    }
  }

  method DetectDrift(w: World, order: seq<Key>) returns (drift: seq<Drift>)
    requires Lists(order, w.local)
    ensures IsDriftReport(w, drift)
  {
    drift := [];
    for i := 0 to |order|
      invariant ReportsOn(w, order[..i], drift)
    {
      assert order[i] in order && order[i] !in order[..i];
      assert order[..i + 1] == order[..i] + [order[i]];
      ReportStep(w, order[..i], drift, order[i]);
      var desired := w.local[order[i]];
      var actual := ListedValue(w.provider, order[i]);
      if actual != Some(desired.value) {
        drift := drift + [Drift(order[i], desired.value, actual)];
      }
    }
    assert order[..|order|] == order;
    FullReport(w, order, drift);
  }

  // The report in terms of the provider's list: a local key is reported exactly if the list
  // has no record of it, or the last one has another value; the value reported is that one.
  lemma {:induction false} ReportIsOfLastRecords(w: World, drift: seq<Drift>, key: Key)
    requires IsDriftReport(w, drift) && key in w.local
    ensures (exists d :: d in drift && d.key == key)
       <==> !exists i :: 0 <= i < |w.provider| && w.provider[i].key == key && IsLast(w.provider, i)
                         && w.provider[i].value == w.local[key].value
    ensures forall d :: d in drift && d.key == key ==>
      && d.expected == w.local[key].value
      && (d.actual.None? <==> forall i :: 0 <= i < |w.provider| ==> w.provider[i].key != key)
      && (forall i :: 0 <= i < |w.provider| && w.provider[i].key == key && IsLast(w.provider, i) ==>
            d.actual == Some(w.provider[i].value))
  {
    if Reported(drift, key) {
      var i :| 0 <= i < |drift| && drift[i].key == key;
      assert drift[i] in drift;
    }
    ListedIsLast(w.provider, key);
  }

  // What sync sees of a key is the value of its last record, and nothing only if it has none.
  lemma {:induction false} ListedIsLast(p: Provider, key: Key)
    ensures ListedValue(p, key).None? <==> forall i :: 0 <= i < |p| ==> p[i].key != key
    ensures forall i :: 0 <= i < |p| && p[i].key == key && IsLast(p, i) ==> ListedValue(p, key) == Some(p[i].value)
    ensures ListedValue(p, key).Some? ==>
      exists i :: 0 <= i < |p| && p[i].key == key && IsLast(p, i) && ListedValue(p, key) == Some(p[i].value)
  {
    if LastRecord(p, key).Some? {
      LastIsLast(p, key);
      assert IsLast(p, LastRecord(p, key).value);
    }
  }

  method ReconcilePayload(w: World, drift: seq<Drift>) returns (fix: seq<Record>)
    requires IsDriftReport(w, drift)
    ensures IsFixFor(w.local, drift, fix)
  {
    fix := [];
    for i := 0 to |drift|
      invariant |fix| == i && forall k :: 0 <= k < i ==> fix[k] == FixOf(w.local, drift[k].key)
    {
      var desired := w.local[drift[i].key];
      fix := fix + [Record(drift[i].key, desired.value, Some(desired.ttl), desired.priority, None)];
    }
  }

  /******* Convergence *******/

  // More than one provider record carries the key.
  predicate Repeated(p: Provider, key: Key) {
    FindRecord(p, key) != LastRecord(p, key)
  }

  lemma {:induction false} RepeatedMeansTwice(p: Provider, key: Key)
    ensures Repeated(p, key) <==> exists i, j :: 0 <= i < j < |p| && p[i].key == key && p[j].key == key
  {
    if LastRecord(p, key).Some? {
      LastIsLast(p, key);
      var first, last := FindRecord(p, key).value, LastRecord(p, key).value;
      assert p[first].key == key && p[last].key == key && first <= last;
    }
  }

  lemma {:induction false} ReportedLast(drift: seq<Drift>, key: Key)
    requires drift != [] && EachOnce(drift)
    ensures var n := |drift| - 1;
      && EachOnce(drift[..n])
      && (Reported(drift, key) <==> Reported(drift[..n], key) || drift[n].key == key)
      && (drift[n].key == key ==> !Reported(drift[..n], key))
  {
    var n := |drift| - 1;
    assert forall i :: 0 <= i < n ==> drift[..n][i] == drift[i];
  }

  lemma {:induction false} OwnFix(local: Local, drift: seq<Drift>, fix: seq<Record>, key: Key)
    requires IsFixFor(local, drift, fix) && EachOnce(drift)
    ensures Of(fix, key) == if Reported(drift, key) then [FixOf(local, key)] else []
  {
    if fix != [] {
      var n := |fix| - 1;
      ReportedLast(drift, key);
      OwnFix(local, drift[..n], fix[..n], key);
      OfAppend(fix, key);
    }
  }

  lemma {:induction false} LastAfterPatch(p: Provider, i: nat, r: ProviderRecord, key: Key)
    requires i < |p| && r.key == p[i].key
    ensures LastRecord(p[i := r], key) == LastRecord(p, key)
  {
    var n := |p| - 1;
    if i < n {
      assert p[i := r][..n] == p[..n][i := r];
      LastAfterPatch(p[..n], i, r, key);
    } else {
      assert p[i := r][..n] == p[..n];
    }
  }

  // Upserts rewrite first records only, so a key's listed value changes only when its
  // one record, or a new one, is written; and no upsert makes a key repeated.
  lemma {:induction false} ListedAfterUpsert(p: Provider, rec: Record, key: Key)
    ensures var q := ProviderUpsert(p, rec).0;
      && ListedValue(q, key) == (if rec.key == key && !Repeated(p, key) then Some(rec.value) else ListedValue(p, key))
      && (Repeated(q, key) <==> Repeated(p, key))
  {
    FindAfterUpsert(p, rec, key);
    match FindRecord(p, rec.key)
    case None => assert ProviderUpsert(p, rec).0[..|p|] == p;
    case Some(i) => LastAfterPatch(p, i, PatchedBy(p[i], rec), key);
  }

  lemma {:induction false} ListedAfterBatch(w: World, recs: seq<Record>, key: Key)
    ensures var q := Applied(w, recs).provider;
      && (Repeated(q, key) <==> Repeated(w.provider, key))
      && ListedValue(q, key) == if Of(recs, key) != [] && !Repeated(w.provider, key)
                                then Some(Of(recs, key)[|Of(recs, key)| - 1].value)
                                else ListedValue(w.provider, key)
  {
    if recs != [] {
      var init, rec := recs[..|recs| - 1], recs[|recs| - 1];
      ListedAfterBatch(w, init, key);
      OfAppend(recs, key);
      ListedAfterUpsert(Applied(w, init).provider, rec, key);
    }
  }

  // What a successful reconcile does, key by key. The local record keeps its value, ttl
  // and priority; a repaired key loses its tags, which the payload does not carry.
  lemma {:induction false} ReconcileLocal(
    w: World, drift: seq<Drift>, fix: seq<Record>, schedule: seq<Attempt>, key: Key)
    requires IsDriftReport(w, drift) && IsFixFor(w.local, drift, fix) && Commits in schedule
    ensures var (d, _) := Job(w, fix, schedule);
      && (key in d.local <==> key in w.local)
      && (key in w.local ==>
            && d.local[key].value == w.local[key].value
            && d.local[key].ttl == w.local[key].ttl
            && d.local[key].priority == w.local[key].priority
            && d.local[key].tags == (if Drifted(w, key) then map[] else w.local[key].tags))
  {
    RetryRefinement(w, fix, schedule);
    OwnFix(w.local, drift, fix, key);
    LocalLaw(w, fix, key);
  }

  // A key is drifted afterwards exactly if it was drifted and has several provider records.
  lemma {:induction false} ReconcileKey(w: World, drift: seq<Drift>, fix: seq<Record>, schedule: seq<Attempt>, key: Key)
    requires IsDriftReport(w, drift) && IsFixFor(w.local, drift, fix) && Commits in schedule
    ensures Drifted(Job(w, fix, schedule).0, key) <==> Drifted(w, key) && Repeated(w.provider, key)
  {
    ReconcileLocal(w, drift, fix, schedule, key);
    RetryRefinement(w, fix, schedule);
    OwnFix(w.local, drift, fix, key);
    ListedAfterBatch(w, fix, key);
  }

  // Once a reconcile job has succeeded, and nobody else wrote, the next sync reports no
  // drift exactly when no drifted key had several provider records.
  lemma {:induction false} ReconcileConvergesIff(
    w: World, drift: seq<Drift>, fix: seq<Record>, schedule: seq<Attempt>, next: seq<Drift>)
    requires IsDriftReport(w, drift) && IsFixFor(w.local, drift, fix) && Commits in schedule
    requires IsDriftReport(Job(w, fix, schedule).0, next)
    ensures next == [] <==> forall key :: Drifted(w, key) ==> !Repeated(w.provider, key)
  {
    var d := Job(w, fix, schedule).0;
    forall key ensures Drifted(d, key) <==> Drifted(w, key) && Repeated(w.provider, key) {
      ReconcileKey(w, drift, fix, schedule, key);
    }
    if next != [] {
      assert Drifted(d, next[0].key);
    }
  }

  // For such a key the drift is permanent: another successful reconcile leaves it.
  lemma {:induction false} RepeatedKeyStaysDrifted(
    w: World, drift: seq<Drift>, fix: seq<Record>, a: seq<Attempt>,
    drift': seq<Drift>, fix': seq<Record>, a': seq<Attempt>, key: Key)
    requires IsDriftReport(w, drift) && IsFixFor(w.local, drift, fix) && Commits in a
    requires var d := Job(w, fix, a).0; IsDriftReport(d, drift') && IsFixFor(d.local, drift', fix')
    requires Commits in a'
    requires Drifted(w, key) && Repeated(w.provider, key)
    ensures Drifted(Job(Job(w, fix, a).0, fix', a').0, key)
  {
    var d := Job(w, fix, a).0;
    ReconcileKey(w, drift, fix, a, key);
    RetryRefinement(w, fix, a);
    ListedAfterBatch(w, fix, key);
    ReconcileKey(d, drift', fix', a', key);
  }
}
