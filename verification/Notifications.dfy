/** Down and recovered notices: the stale-heartbeat monitor (apps/nexus_api/main.py) and the
    storage watchdog (apps/storage_agent/main.py) as two users of one machine. */
module Notifications {
  import opened Wrappers

  /******* The machine *******/

  // What a poll saw of a name, and also what a notice says of it.
  datatype Report = Report(name: string, up: bool)

  datatype State = State(tracked: set<string>, sent: seq<Report>)

  const START := State({}, [])

  function Observe(s: State, o: Report): State {
    if o.up == (o.name !in s.tracked) then s
    else State(if o.up then s.tracked - {o.name} else s.tracked + {o.name}, s.sent + [o])
  }

  function After(s: State, seen: seq<Report>): State {
    if seen == [] then s
    else Observe(After(s, seen[..|seen| - 1]), seen[|seen| - 1])
  }

  /******* The two monitors *******/

  datatype Heartbeat = Never | Unreadable | At(time: int)

  // An agent of the registry's answer; "" stands for a missing name.
  datatype Agent = Agent(name: string, heartbeat: Heartbeat)

  // Three minutes, in microseconds.
  const PATIENCE := 180_000_000

  // The agents a pass gets to judge: those that have reported, up to the first whose time
  // cannot be read, which ends the pass.
  function Judged(agents: seq<Agent>, now: int): seq<Report> {
    if agents == [] then []
    else
      var front, last := agents[..|agents| - 1], agents[|agents| - 1];
      if Readable(front) && last.heartbeat.At?
      then Judged(front, now) + [Judgement(last, now)]
      else Judged(front, now)
  }

  function Judgement(a: Agent, now: int): Report
    requires a.heartbeat.At?
  {
    Report(a.name, a.heartbeat.time >= now - PATIENCE)
  }

  predicate Readable(agents: seq<Agent>) {
    forall i :: 0 <= i < |agents| ==> !agents[i].heartbeat.Unreadable?
  }

  // The number of agents judged up.
  function Healthy(seen: seq<Report>): nat {
    if seen == [] then 0
    else Healthy(seen[..|seen| - 1]) + if seen[|seen| - 1].up then 1 else 0
  }

  // A heartbeat-OK event of the activity log: healthy agents, listed agents.
  datatype AllWell = AllWell(healthy: nat, total: nat)

  class HeartbeatMonitor {
    var alerted: set<string>
    var sent: seq<Report>
    var ticks: nat
    var logged: seq<AllWell>
    // Everything judged since the start.
    ghost var seen: seq<Report>

    ghost predicate Valid()
      reads this
    {
      State(alerted, sent) == After(START, seen)
    }

    constructor ()
      ensures Valid() && seen == [] && ticks == 0 && logged == []
    {
      alerted, sent, ticks, logged, seen := {}, [], 0, [], [];
    }

    // One cycle; None is a registry that did not answer 200 with a list.
    method Poll(answer: Option<seq<Agent>>, now: int)
      requires Valid()
      modifies this
      ensures Valid() && ticks == old(ticks) + 1
      ensures seen == old(seen) + if answer.None? then [] else Judged(answer.value, now)
      ensures logged == old(logged) +
              if answer.Some? && Readable(answer.value) && ticks % 15 == 0
              then [AllWell(Healthy(Judged(answer.value, now)), |answer.value|)] else []
    {
      ticks := ticks + 1;
      if answer.None? {
        assert old(seen) + [] == old(seen);
        return;
      }
      var healthy, complete := Pass(answer.value, now);
      if complete && ticks % 15 == 0 {
        logged := logged + [AllWell(healthy, |answer.value|)];
      }
    }

    // The loop over the listed agents; it is cut short by a time that cannot be read.
    method Pass(agents: seq<Agent>, now: int) returns (healthy: nat, complete: bool)
      requires Valid()
      modifies `alerted, `sent, `seen
      ensures Valid() && seen == old(seen) + Judged(agents, now)
      ensures healthy == Healthy(Judged(agents, now)) && (complete <==> Readable(agents))
    {
      healthy := 0;
      var i := 0;
      while i < |agents| && !agents[i].heartbeat.Unreadable?
        invariant 0 <= i <= |agents| && Valid()
        invariant PassedTo(agents, now, i, old(seen), seen, healthy)
      {
        PassStep(agents, now, i, old(seen), seen, healthy);
        if agents[i].heartbeat.At? {
          var o := Judgement(agents[i], now);
          Judge(o);
          healthy := if o.up then healthy + 1 else healthy;
        }
        i := i + 1;
      }
      complete := i == |agents|;
      PassEnd(agents, now, i, old(seen), seen, healthy);
    }

    // The branches on one agent's heartbeat.
    method Judge(o: Report)
      requires Valid()
      modifies `alerted, `sent, `seen
      ensures Valid() && seen == old(seen) + [o]
    {
      if !o.up {
        if o.name !in alerted {
          alerted := alerted + {o.name};
          sent := sent + [o];
        }
      } else {
        if o.name in alerted {
          alerted := alerted - {o.name};
          sent := sent + [o];
        }
      }
      Snoc(seen, o);
      seen := seen + [o];
    }
  }

  // What a pass has done before it comes to agent i.
  ghost predicate PassedTo(agents: seq<Agent>, now: int, i: nat, before: seq<Report>, seen: seq<Report>, healthy: int)
    requires i <= |agents|
  {
    && Readable(agents[..i])
    && seen == before + Judged(agents[..i], now)
    && healthy == Healthy(Judged(agents[..i], now))
  }

  lemma {:induction false} PassStep(
    agents: seq<Agent>, now: int, i: nat, before: seq<Report>, seen: seq<Report>, healthy: int)
    requires i < |agents| && !agents[i].heartbeat.Unreadable? && PassedTo(agents, now, i, before, seen, healthy)
    ensures if agents[i].heartbeat.At? then
              var o := Judgement(agents[i], now);
              PassedTo(agents, now, i + 1, before, seen + [o], if o.up then healthy + 1 else healthy)
            else PassedTo(agents, now, i + 1, before, seen, healthy)
  {
    JudgedStep(agents, i, now);
    if agents[i].heartbeat.At? {
      Snoc(Judged(agents[..i], now), Judgement(agents[i], now));
    }
  }

  lemma {:induction false} PassEnd(
    agents: seq<Agent>, now: int, i: nat, before: seq<Report>, seen: seq<Report>, healthy: int)
    requires i <= |agents| && PassedTo(agents, now, i, before, seen, healthy)
    requires i < |agents| ==> agents[i].heartbeat.Unreadable?
    ensures seen == before + Judged(agents, now) && healthy == Healthy(Judged(agents, now))
    ensures i == |agents| <==> Readable(agents)
  {
    if i < |agents| {
      CutShort(agents, i, now);
    } else {
      assert agents[..i] == agents;
    }
  }

  lemma {:induction false} JudgedStep(agents: seq<Agent>, i: nat, now: int)
    requires i < |agents| && Readable(agents[..i])
    ensures var before, a := Judged(agents[..i], now), agents[i];
            && Judged(agents[..i + 1], now) == (if a.heartbeat.At? then before + [Judgement(a, now)] else before)
            && (Readable(agents[..i + 1]) <==> !a.heartbeat.Unreadable?)
  {
    assert agents[..i + 1][..i] == agents[..i];
    assert agents[..i + 1] == agents[..i] + [agents[i]];
  }

  lemma {:induction false} CutShort(agents: seq<Agent>, i: nat, now: int)
    requires i < |agents| && agents[i].heartbeat.Unreadable?
    ensures Judged(agents, now) == Judged(agents[..i], now)
  {
    var front := agents[..|agents| - 1];
    if i < |front| {
      assert front[i] == agents[i] && front[..i] == agents[..i];
      CutShort(front, i, now);
    }
  }

  datatype Target = Target(id: string, enabled: bool, reachable: bool)

  function Checked(targets: seq<Target>): seq<Report> {
    if targets == [] then []
    else
      var front, t := Checked(targets[..|targets| - 1]), targets[|targets| - 1];
      if t.enabled then front + [Report(t.id, t.reachable)] else front
  }

  class ConnectivityWatchdog {
    var unreachable: set<string>
    var sent: seq<Report>
    ghost var seen: seq<Report>

    ghost predicate Valid()
      reads this
    {
      State(unreachable, sent) == After(START, seen)
    }

    constructor ()
      ensures Valid() && seen == []
    {
      unreachable, sent, seen := {}, [], [];
    }

    // One cycle; None is a failure to list the targets.
    method Poll(targets: Option<seq<Target>>)
      requires Valid()
      modifies this
      ensures Valid()
      ensures seen == old(seen) + if targets.None? then [] else Checked(targets.value)
    {
      if targets.None? {
        assert old(seen) + [] == old(seen);
        return;
      }
      for i := 0 to |targets.value|
        invariant Valid() && seen == old(seen) + Checked(targets.value[..i])
      {
        var t := targets.value[i];
        assert targets.value[..i + 1][..i] == targets.value[..i];
        if t.enabled {
          if t.reachable {
            if t.id in unreachable {
              unreachable := unreachable - {t.id};
              sent := sent + [Report(t.id, true)];
            }
          } else if t.id !in unreachable {
            unreachable := unreachable + {t.id};
            sent := sent + [Report(t.id, false)];
          }
          Snoc(seen, Report(t.id, t.reachable));
          seen := seen + [Report(t.id, t.reachable)];
        }
      }
      assert targets.value[..|targets.value|] == targets.value;
    }
  }

  lemma {:induction false} Snoc(seen: seq<Report>, o: Report)
    ensures var all := seen + [o]; all[..|all| - 1] == seen && all[|all| - 1] == o
  {
  }

  /******* What the notices of one name say *******/

  function Of(reports: seq<Report>, name: string): seq<bool> {
    if reports == [] then []
    else
      var front, last := Of(reports[..|reports| - 1], name), reports[|reports| - 1];
      if last.name == name then front + [last.up] else front
  }

  // The status a history ends in; a name never seen counts as up.
  predicate EndsUp(ups: seq<bool>) {
    ups == [] || ups[|ups| - 1]
  }

  // The changes of status in a history, each by the status it changes to.
  function Changes(ups: seq<bool>): seq<bool> {
    if ups == [] then []
    else
      var front, last := ups[..|ups| - 1], ups[|ups| - 1];
      if last == EndsUp(front) then Changes(front) else Changes(front) + [last]
  }

  // Down, recovered, down, ...
  predicate Alternating(notes: seq<bool>) {
    forall k :: 0 <= k < |notes| ==> notes[k] == (k % 2 == 1)
  }

  lemma {:induction false} ChangesAlternate(ups: seq<bool>)
    ensures Alternating(Changes(ups)) && (|Changes(ups)| % 2 == 0 <==> EndsUp(ups))
  {
    if ups != [] {
      ChangesAlternate(ups[..|ups| - 1]);
    }
  }

  // A name's notices are the changes of its own observed status, whatever happens to others.
  lemma {:induction false} NoticesAreChanges(seen: seq<Report>, name: string)
    ensures var s := After(START, seen);
            && Of(s.sent, name) == Changes(Of(seen, name))
            && (name in s.tracked <==> !EndsUp(Of(seen, name)))
  {
    if seen != [] {
      var front, o := seen[..|seen| - 1], seen[|seen| - 1];
      NoticesAreChanges(front, name);
      Snoc(After(START, front).sent, o);
      if o.name == name {
        var before := Of(front, name);
        assert (before + [o.up])[..|before|] == before;
      }
    }
  }

  // Over any run, each name's notices alternate, starting with down, and the tracked names
  // are those whose last notice, and whose last observation, was down.
  lemma {:induction false} NoticesAlternate(seen: seq<Report>, name: string)
    ensures var s := After(START, seen);
            var notes := Of(s.sent, name);
            && Alternating(notes)
            && (name in s.tracked <==> notes != [] && !notes[|notes| - 1])
            && (name in s.tracked <==> Of(seen, name) != [] && !Of(seen, name)[|Of(seen, name)| - 1])
  {
    NoticesAreChanges(seen, name);
    ChangesAlternate(Of(seen, name));
  }

  // The set is kept in memory. Across a restart the notices of a name still alternate
  // exactly when it was not tracked at the restart, or is never down afterwards.
  lemma {:induction false} RestartKeepsAlternationIff(before: seq<Report>, after: seq<Report>, name: string)
    ensures var first, second := After(START, before), After(START, after);
            Alternating(Of(first.sent, name) + Of(second.sent, name))
            <==> name !in first.tracked || false !in Of(after, name)
  {
    NoticesAreChanges(before, name);
    NoticesAreChanges(after, name);
    ChangesAlternate(Of(before, name));
    ChangesAlternate(Of(after, name));
    NoChangesIff(Of(after, name));
    AlternatingJoin(Changes(Of(before, name)), Changes(Of(after, name)));
  }

  lemma {:induction false} AlternatingJoin(first: seq<bool>, second: seq<bool>)
    requires Alternating(first) && Alternating(second)
    ensures Alternating(first + second) <==> |first| % 2 == 0 || second == []
  {
    var both := first + second;
    assert forall k :: 0 <= k < |second| ==> both[|first| + k] == second[k];
    assert forall k :: |first| <= k < |both| ==> both[k] == second[k - |first|];
    if |first| % 2 == 1 && second != [] {
      assert both[|first|] == second[0];
    }
  }

  lemma {:induction false} NoChangesIff(ups: seq<bool>)
    ensures Changes(ups) == [] <==> false !in ups
  {
    if ups != [] {
      var front := ups[..|ups| - 1];
      NoChangesIff(front);
      ChangesAlternate(front);
      assert ups == front + [ups[|ups| - 1]];
    }
  }

  /******* What the polls notice *******/

  // A complete pass judges exactly the agents that have reported: down if the last time was
  // more than three minutes ago.
  lemma {:induction false} JudgedMeans(agents: seq<Agent>, now: int, o: Report)
    requires Readable(agents)
    ensures o in Judged(agents, now) <==>
      exists a :: a in agents && a.name == o.name && a.heartbeat.At? && o.up == !(a.heartbeat.time < now - 180_000_000)
  {
    if agents != [] {
      var front, last := agents[..|agents| - 1], agents[|agents| - 1];
      assert agents == front + [last] && Readable(front);
      JudgedMeans(front, now, o);
      assert forall a :: a in agents <==> a in front || a == last;
    }
  }

  // After a poll of registered agents with different names, those that have reported are
  // tracked exactly if they are stale, whatever was noticed before.
  lemma {:induction false} TrackedIffStale(before: seq<Report>, agents: seq<Agent>, now: int, a: Agent)
    requires Readable(agents) && a in agents && a.heartbeat.At?
    requires forall b :: b in agents && b.name == a.name ==> b == a
    ensures a.name in After(START, before + Judged(agents, now)).tracked <==> a.heartbeat.time < now - 180_000_000
  {
    var up := !(a.heartbeat.time < now - 180_000_000);
    forall o | o in Judged(agents, now) && o.name == a.name ensures o.up == up {
      JudgedMeans(agents, now, o);
    }
    JudgedMeans(agents, now, Report(a.name, up));
    LastSaysAll(before, Judged(agents, now), Report(a.name, up));
  }

  // A poll that says one thing of a name decides whether it is tracked.
  lemma {:induction false} LastSaysAll(before: seq<Report>, poll: seq<Report>, o: Report)
    requires o in poll && forall x :: x in poll && x.name == o.name ==> x == o
    ensures o.name in After(START, before + poll).tracked <==> !o.up
  {
    NoticesAreChanges(before + poll, o.name);
    OfAppend(before, poll, o.name);
    OfMeans(poll, o.name);
    var own := Of(poll, o.name);
    assert o.up in own;
    var all := Of(before, o.name) + own;
    assert all[|all| - 1] == own[|own| - 1] && own[|own| - 1] in own;
  }

  lemma {:induction false} OfAppend(a: seq<Report>, b: seq<Report>, name: string)
    ensures Of(a + b, name) == Of(a, name) + Of(b, name)
  {
    if b == [] {
      assert a + b == a;
    } else {
      assert (a + b)[..|a + b| - 1] == a + b[..|b| - 1];
      OfAppend(a, b[..|b| - 1], name);
    }
  }

  lemma {:induction false} OfMeans(reports: seq<Report>, name: string)
    ensures forall up :: up in Of(reports, name) <==> Report(name, up) in reports
  {
    if reports != [] {
      var front, last := reports[..|reports| - 1], reports[|reports| - 1];
      OfMeans(front, name);
      assert reports == front + [last];
    }
  }

  // The watchdog checks exactly the enabled targets.
  lemma {:induction false} CheckedMeans(targets: seq<Target>, o: Report)
    ensures o in Checked(targets) <==> exists t :: t in targets && t.enabled && t.id == o.name && t.reachable == o.up
  {
    if targets != [] {
      var front, last := targets[..|targets| - 1], targets[|targets| - 1];
      CheckedMeans(front, o);
      assert forall t :: t in targets <==> t in front || t == last by {
        assert targets == front + [last];
      }
    }
  }

  // After a check of targets with different ids, an enabled one is tracked exactly if it could
  // not be reached.
  lemma {:induction false} TrackedIffUnreachable(before: seq<Report>, targets: seq<Target>, t: Target)
    requires t in targets && t.enabled && forall u :: u in targets && u.id == t.id ==> u == t
    ensures t.id in After(START, before + Checked(targets)).tracked <==> !t.reachable
  {
    forall o | o in Checked(targets) && o.name == t.id ensures o.up == t.reachable {
      CheckedMeans(targets, o);
    }
    CheckedMeans(targets, Report(t.id, t.reachable));
    LastSaysAll(before, Checked(targets), Report(t.id, t.reachable));
  }

  // The number of agents that a complete pass judged up.
  lemma {:induction false} HealthyCounts(seen: seq<Report>)
    ensures Healthy(seen) == |set i | 0 <= i < |seen| && seen[i].up|
  {
    if seen != [] {
      var n := |seen| - 1;
      HealthyCounts(seen[..n]);
      var some, all := set i | 0 <= i < n && seen[..n][i].up, set i | 0 <= i < |seen| && seen[i].up;
      assert all == if seen[n].up then some + {n} else some;
    }
  }
}
