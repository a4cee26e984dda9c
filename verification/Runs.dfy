/**
  Runs: any sequence of lxdk commands on any clusters, each succeeding or
  failing at any call, from a cache that holds no cluster. LXD may hold
  anything at the start.
 */
module Runs {
  import opened Text
  import opened Names
  import opened Worlds
  import opened Lxd
  import opened Steps
  import opened Commands
  import opened Creating
  import opened Isolation

  /** `worlds[i]` is the world before event `i`, `worlds[i + 1]` the world after it. */
  datatype Trace = Trace(worlds: seq<World>, events: seq<Event>)

  ghost predicate Linked(t: Trace) {
    |t.worlds| == |t.events| + 1 && forall i {:trigger t.events[i]} | 0 <= i < |t.events| :: Next(t.worlds[i], t.events[i], t.worlds[i + 1])
  }

  /** Nothing is in the cache, and nothing has been started. */
  ghost predicate Initial(w: World) {
    w.clusters == map[] && w.starts == []
  }

  type Run = t: Trace | Linked(t) && Initial(t.worlds[0]) witness Trace([EMPTY], [])

  // ---- lxdk runs are runs ----

  /** One run of lxdk. */
  method Execute(lxd: Server, cache: Cache, a: Action) returns (r: Outcome)
    requires OwnRecord(Snapshot(lxd, cache), a.c)
    modifies lxd, cache
    ensures Step(old(Snapshot(lxd, cache)), a, r, Snapshot(lxd, cache))
  {
    match a
    case Create(c, o) => r := DoCreate(lxd, cache, c, o);
    case Start(c, hostname) => r := DoStart(lxd, cache, c, hostname);
    case Stop(c) => r := DoStop(lxd, cache, c);
    case StartWorker(c, hostname) => r := DoStartWorker(lxd, cache, c, hostname);
    case Delete(c, storage, network) => r := DoDelete(lxd, cache, c, storage, network);
  }

  function EventsOf(actions: seq<Action>, outcomes: seq<Outcome>): seq<Event>
    requires |actions| == |outcomes|
  {
    seq(|actions|, i requires 0 <= i < |actions| => Event(actions[i], outcomes[i]))
  }

  /** Commands carried out one after the other make a run, and the records they leave meet what the next one needs. */
  method Session(lxd: Server, cache: Cache, actions: seq<Action>) returns (outcomes: seq<Outcome>, ghost worlds: seq<World>)
    requires Sound(Snapshot(lxd, cache)) && forall i | 0 <= i < |actions| :: ClusterName(actions[i].c)
    modifies lxd, cache
    ensures |outcomes| == |actions| && |worlds| == |actions| + 1
    ensures Linked(Trace(worlds, EventsOf(actions, outcomes)))
    ensures worlds[0] == old(Snapshot(lxd, cache)) && worlds[|actions|] == Snapshot(lxd, cache)
  {
    outcomes, worlds := [], [Snapshot(lxd, cache)];
    for i := 0 to |actions|
      invariant |outcomes| == i && |worlds| == i + 1
      invariant worlds[0] == old(Snapshot(lxd, cache)) && worlds[i] == Snapshot(lxd, cache) && Sound(worlds[i])
      invariant forall j {:trigger outcomes[j]} | 0 <= j < i :: Step(worlds[j], actions[j], outcomes[j], worlds[j + 1])
    {
      ghost var w := Snapshot(lxd, cache);
      assert actions[i].c in w.clusters ==> OwnRecord(w, actions[i].c);
      var r := Execute(lxd, cache, actions[i]);
      StepKeepsSound(w, actions[i], r, Snapshot(lxd, cache));
      outcomes, worlds := outcomes + [r], worlds + [Snapshot(lxd, cache)];
    }
  }

  // ---- what every run keeps ----

  /** In every run every record is its cluster's own. */
  lemma {:induction false} Reachable(run: Run, i: nat)
    requires i < |run.worlds|
    ensures Sound(run.worlds[i])
  {
    if i > 0 {
      Reachable(run, i - 1);
      var e := run.events[i - 1];
      StepKeepsSound(run.worlds[i - 1], e.action, e.outcome, run.worlds[i]);
    }
  }

  /** The move event `i` makes. */
  ghost function MoveAt(run: Run, i: nat): Move
    requires i < |run.events|
  {
    Reachable(run, i);
    Transition(run.worlds[i], run.events[i], run.worlds[i + 1])
  }

  /** The move leads from the world before the event to the one after it. */
  lemma MoveLinks(run: Run, i: nat)
    requires i < |run.events|
    ensures MoveAt(run, i).before == run.worlds[i] && MoveAt(run, i).after == run.worlds[i + 1]
    ensures MoveAt(run, i).event == run.events[i]
  {
  }

  /** Every record in every run lists each of its roles exactly once, and holds at least one worker. */
  lemma RolePartition(run: Run, i: nat, c: string)
    requires i < |run.worlds| && Recorded(run.worlds[i], c)
    ensures var s := RecordOf(run.worlds[i], c);
      && multiset(s.containers) == multiset{s.etcd, s.controller, s.registry} + multiset(s.workers)
      && |s.workers| >= 1 && |s.containers| == |s.workers| + 3
      && NamedFor(s.etcd, c, Etcd) && NamedFor(s.controller, c, Controller) && NamedFor(s.registry, c, Registry)
      && forall n | n in s.workers :: NamedFor(n, c, Worker)
  {
    Reachable(run, i);
    assert OwnRecord(run.worlds[i], c);
    var s := RecordOf(run.worlds[i], c);
    assert multiset(Roles(s)) == multiset{s.etcd, s.controller, s.registry} + multiset(s.workers);
    assert |multiset(s.containers)| == |multiset(Roles(s))|;
  }

  /**
    No command on one cluster starts, stops, changes or deletes an instance
    another cluster has recorded, nor touches that cluster's directory.
   */
  lemma ClustersAreIsolated(run: Run, i: nat, b: string, n: string)
    requires i < |run.events| && b != run.events[i].action.c
    requires Recorded(run.worlds[i], b) && n in RecordOf(run.worlds[i], b).containers
    ensures SameAt(run.worlds[i].instances, run.worlds[i + 1].instances, n)
    ensures b in run.worlds[i + 1].clusters && run.worlds[i + 1].clusters[b] == run.worlds[i].clusters[b]
    ensures var a := run.events[i].action.c;
      Recorded(run.worlds[i], a) ==> n !in RecordOf(run.worlds[i], a).containers
  {
    var t := MoveAt(run, i);
    assert OwnRecord(t.before, b);
    OthersUntouched(t, b);
    RecordedAreOwned(RecordOf(t.before, b), b);
    if Recorded(t.before, t.event.action.c) {
      RecordedDisjoint(t.before, b, t.event.action.c, n);
    }
  }

  /** Every start found what its service needs. */
  ghost predicate AllReady(starts: seq<ServiceStart>) {
    starts == [] || (AllReady(starts[..|starts| - 1]) && Ready(starts[|starts| - 1]))
  }

  lemma {:induction false} AllReadyMore(a: seq<ServiceStart>, b: seq<ServiceStart>)
    requires AllReady(a) && StartsReady(a, b)
    ensures AllReady(b)
    decreases |b|
  {
    if |b| > |a| {
      var front := b[..|b| - 1];
      assert forall k | |a| <= k < |front| :: front[k] == b[k];
      AllReadyMore(a, front);
    } else {
      assert a == b;
    }
  }

  lemma {:induction false} EachReady(starts: seq<ServiceStart>, k: nat)
    requires AllReady(starts) && k < |starts|
    ensures Ready(starts[k])
    decreases |starts|
  {
    if k < |starts| - 1 {
      EachReady(starts[..|starts| - 1], k);
    }
  }

  lemma MoveKeepsReady(t: Move)
    requires AllReady(t.before.starts)
    ensures AllReady(t.after.starts)
  {
    MoveStartsReady(t);
    AllReadyMore(t.before.starts, t.after.starts);
  }

  lemma {:induction false} AllStartsReady(run: Run, i: nat)
    requires i < |run.worlds|
    ensures AllReady(run.worlds[i].starts)
  {
    if i > 0 {
      AllStartsReady(run, i - 1);
      MoveLinks(run, i - 1);
      MoveKeepsReady(MoveAt(run, i - 1));
    }
  }

  /** Whenever a service is started everything its unit and configuration name is in the container already. */
  lemma ServicesStartReady(run: Run, i: nat, k: nat)
    requires i < |run.worlds| && k < |run.worlds[i].starts|
    ensures Ready(run.worlds[i].starts[k])
  {
    AllStartsReady(run, i);
    EachReady(run.worlds[i].starts, k);
  }
}
