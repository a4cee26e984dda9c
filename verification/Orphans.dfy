/**
  Containers no record lists: what commands that fail partway leave behind,
  and what never succeeds again because of it.
 */
module Orphans {
  import opened Text
  import opened Names
  import opened Wrappers
  import opened Worlds
  import opened Containers
  import opened Steps
  import opened Isolation
  import opened Runs
  import opened RoundTrip

  /** An instance with a name of the cluster's that its record, if there is one, does not list. */
  ghost predicate Orphan(w: World, c: string, n: string) {
    OwnedBy(n, c) && n in w.instances && (Recorded(w, c) ==> n !in RecordOf(w, c).containers)
  }

  // ---- orphans stay ----

  lemma CreateKeepsOrphan(w: World, c: string, o: Options, r: Outcome, w': World, n: string)
    requires CreateStep(w, c, o, r, w') && Orphan(w, c, n)
    ensures Orphan(w', c, n) && w'.instances[n] == w.instances[n]
  {
    if c !in w.clusters && !CreateAborted(w, c, o, w') {
      var s :| CreateMade(w, c, o, w', s);
      MadeAccounts(w.instances, w'.instances, c, s);
      assert Accounted(w.instances, w'.instances, s.containers, n);
    }
  }

  lemma StartKeepsOrphan(w: World, c: string, hostname: string, r: Outcome, w': World, n: string)
    requires StartStep(w, c, hostname, r, w') && Orphan(w, c, n)
    ensures Orphan(w', c, n) && w'.instances[n] == w.instances[n]
  {
    if StartGuard(w, c) {
      var d :| StartedTo(w, c, r, w', d);
    }
  }

  lemma WorkerKeepsOrphan(w: World, c: string, hostname: string, r: Outcome, w': World, n: string)
    requires StartWorkerStep(w, c, hostname, r, w') && Orphan(w, c, n)
    ensures Orphan(w', c, n) && w'.instances[n] == w.instances[n]
  {
    if WorkerGuard(w, c) && w' != w {
      var x, d :| WorkerAdded(w, c, r, w', x, d);
    }
  }

  lemma StopKeepsOrphan(w: World, c: string, r: Outcome, w': World, n: string)
    requires StopStep(w, c, r, w') && Orphan(w, c, n)
    ensures Orphan(w', c, n) && w'.instances[n] == w.instances[n]
  {
  }

  lemma DeleteKeepsOrphan(w: World, c: string, storage: bool, network: bool, r: Outcome, w': World, n: string)
    requires DeleteStep(w, c, storage, network, r, w') && Orphan(w, c, n)
    ensures Orphan(w', c, n) && w'.instances[n] == w.instances[n]
  {
  }

  lemma OthersKeepOrphan(t: Move, c: string, n: string)
    requires Orphan(t.before, c, n) && t.event.action.c != c
    ensures Orphan(t.after, c, n) && t.after.instances[n] == t.before.instances[n]
  {
    OthersUntouched(t, c);
    assert SameAt(t.before.instances, t.after.instances, n);
  }

  lemma MoveKeepsOrphan(t: Move, c: string, n: string)
    requires Orphan(t.before, c, n)
    ensures Orphan(t.after, c, n) && t.after.instances[n] == t.before.instances[n]
  {
    if t.event.action.c != c {
      OthersKeepOrphan(t, c, n);
    } else {
      StepOf(t);
      var w, r, w' := t.before, t.event.outcome, t.after;
      match t.event.action
      case Create(_, o) => CreateKeepsOrphan(w, c, o, r, w', n);
      case Start(_, hostname) => StartKeepsOrphan(w, c, hostname, r, w', n);
      case Stop(_) => StopKeepsOrphan(w, c, r, w', n);
      case StartWorker(_, hostname) => WorkerKeepsOrphan(w, c, hostname, r, w', n);
      case Delete(_, storage, network) => DeleteKeepsOrphan(w, c, storage, network, r, w', n);
    }
  }

  /** No command ever starts, stops, changes or deletes an orphan, or takes it into a record. */
  lemma {:induction false} OrphanStays(run: Run, i: nat, j: nat, c: string, n: string)
    requires i <= j <= |run.events| && Orphan(run.worlds[i], c, n)
    ensures Orphan(run.worlds[j], c, n) && run.worlds[j].instances[n] == run.worlds[i].instances[n]
    decreases j
  {
    if i < j {
      OrphanStays(run, i, j - 1, c, n);
      MoveLinks(run, j - 1);
      MoveKeepsOrphan(MoveAt(run, j - 1), c, n);
    }
  }

  // ---- where orphans come from ----

  /** A create or start-worker of the cluster that fails and leaves behind the container it made. */
  ghost predicate LeavesBehind(t: Transition, c: string, n: string) {
    && t.event.action.c == c && (t.event.action.Create? || t.event.action.StartWorker?) && t.event.outcome != Done
    && n !in t.before.instances && n in t.after.instances
  }

  /** The instance is not there, or the cluster's record lists it. */
  ghost predicate NoOrphan(w: World, c: string, n: string) {
    n in w.instances ==> Recorded(w, c) && n in RecordOf(w, c).containers
  }

  lemma CreateOrphans(w: World, c: string, o: Options, r: Outcome, w': World, n: string)
    requires CreateStep(w, c, o, r, w') && NoOrphan(w, c, n)
    ensures NoOrphan(w', c, n) || (r != Done && n !in w.instances && n in w'.instances)
  {
    if c !in w.clusters && Recorded(w', c) {
      var s :| CreateMade(w, c, o, w', s);
      MadeOrphans(w, c, o, w', s, n);
    }
  }

  lemma MadeOrphans(w: World, c: string, o: Options, w': World, s: ClusterState, n: string)
    requires CreateMade(w, c, o, w', s) && n !in w.instances
    ensures NoOrphan(w', c, n)
  {
    MadeAccounts(w.instances, w'.instances, c, s);
    assert Accounted(w.instances, w'.instances, s.containers, n);
  }

  lemma OthersOrphans(t: Move, c: string, n: string)
    requires OwnedBy(n, c) && NoOrphan(t.before, c, n) && t.event.action.c != c
    ensures NoOrphan(t.after, c, n)
  {
    OthersUntouched(t, c);
    assert SameAt(t.before.instances, t.after.instances, n);
  }

  lemma StopOrphans(w: World, c: string, r: Outcome, w': World, n: string)
    requires StopStep(w, c, r, w') && NoOrphan(w, c, n)
    ensures NoOrphan(w', c, n)
  {
  }

  lemma StartOrphans(w: World, c: string, hostname: string, r: Outcome, w': World, n: string)
    requires StartStep(w, c, hostname, r, w') && NoOrphan(w, c, n)
    ensures NoOrphan(w', c, n)
  {
    if StartGuard(w, c) {
      var d :| StartedTo(w, c, r, w', d);
    }
  }

  lemma WorkerOrphans(w: World, c: string, hostname: string, r: Outcome, w': World, n: string)
    requires StartWorkerStep(w, c, hostname, r, w') && NoOrphan(w, c, n)
    ensures NoOrphan(w', c, n) || (r != Done && n !in w.instances && n in w'.instances)
  {
    if WorkerGuard(w, c) && w' != w {
      var x, d :| WorkerAdded(w, c, r, w', x, d);
    }
  }

  lemma DeleteOrphans(w: World, c: string, storage: bool, network: bool, r: Outcome, w': World, n: string)
    requires DeleteStep(w, c, storage, network, r, w') && NoOrphan(w, c, n)
    ensures NoOrphan(w', c, n)
  {
  }

  lemma MoveOrphans(t: Move, c: string, n: string)
    requires OwnedBy(n, c) && NoOrphan(t.before, c, n)
    ensures NoOrphan(t.after, c, n) || LeavesBehind(t, c, n)
  {
    if t.event.action.c != c {
      OthersOrphans(t, c, n);
    } else {
      StepOf(t);
      var w, r, w' := t.before, t.event.outcome, t.after;
      match t.event.action
      case Create(_, o) => CreateOrphans(w, c, o, r, w', n);
      case Start(_, hostname) => StartOrphans(w, c, hostname, r, w', n);
      case Stop(_) => StopOrphans(w, c, r, w', n);
      case StartWorker(_, hostname) => WorkerOrphans(w, c, hostname, r, w', n);
      case Delete(_, storage, network) => DeleteOrphans(w, c, storage, network, r, w', n);
    }
  }

  lemma {:induction false} NoOrphanKept(run: Run, i: nat, j: nat, c: string, n: string)
    requires i <= j <= |run.events| && OwnedBy(n, c) && NoOrphan(run.worlds[i], c, n)
    ensures NoOrphan(run.worlds[j], c, n) || exists k | i <= k < j :: LeavesBehind(MoveAt(run, k), c, n)
    decreases j
  {
    if i < j {
      NoOrphanKept(run, i, j - 1, c, n);
      if NoOrphan(run.worlds[j - 1], c, n) {
        MoveLinks(run, j - 1);
        MoveOrphans(MoveAt(run, j - 1), c, n);
      }
    }
  }

  /** An orphan that was not there at some earlier time was left behind since by a create or a start-worker that failed. */
  lemma WhereOrphansComeFrom(run: Run, i: nat, j: nat, c: string, n: string)
    requires i <= j <= |run.events| && n !in run.worlds[i].instances && Orphan(run.worlds[j], c, n)
    ensures exists k | i <= k < j :: LeavesBehind(MoveAt(run, k), c, n)
  {
    NoOrphanKept(run, i, j, c, n);
  }

  // ---- deletes that cannot succeed ----

  /** delete is asked to take along a pool or a network that the instance uses. */
  ghost predicate InTheWay(i: Instance, s: ClusterState, storage: bool, network: bool) {
    || (storage && Contains(s.storagePool, "lxdk") && i.pool == s.storagePool)
    || (network && Contains(s.networkID, "lxdk") && i.network == s.networkID)
  }

  lemma OrphanRefusesDelete(t: Move, c: string, n: string)
    requires t.event.action.c == c && t.event.action.Delete? && Recorded(t.before, c) && Orphan(t.before, c, n)
    requires InTheWay(t.before.instances[n], RecordOf(t.before, c), t.event.action.storage, t.event.action.network)
    ensures t.event.outcome != Done
  {
    StepOf(t);
    var s := RecordOf(t.before, c);
    var rest := t.before.instances - NameSet(s.containers);
    assert n in rest && rest[n] == t.before.instances[n];
  }

  /**
    An orphan in the pool or network that a delete of the cluster is to take
    along keeps that delete from succeeding, however much later it comes.
   */
  lemma OrphanBlocksDelete(run: Run, i: nat, j: nat, c: string, n: string)
    requires i <= j < |run.events| && Orphan(run.worlds[i], c, n)
    requires run.events[j].action.c == c && run.events[j].action.Delete? && Recorded(run.worlds[j], c)
    requires var a := run.events[j].action;
             InTheWay(run.worlds[i].instances[n], RecordOf(run.worlds[j], c), a.storage, a.network)
    ensures run.events[j].outcome != Done
  {
    OrphanStays(run, i, j, c, n);
    MoveLinks(run, j);
    OrphanRefusesDelete(MoveAt(run, j), c, n);
  }

  /** A start-worker that failed after it made its container leaves it behind in the cluster's pool and network. */
  lemma FailedWorkerIsOrphan(t: Move, c: string) returns (n: string)
    requires t.event.action.c == c && t.event.action.StartWorker? && t.event.outcome != Done && t.after != t.before
    requires Recorded(t.before, c) && AllPresent(t.before.instances, RecordOf(t.before, c).containers)
    ensures Orphan(t.after, c, n)
    ensures var s := RecordOf(t.before, c);
            t.after.instances[n].pool == s.storagePool && t.after.instances[n].network == s.networkID
  {
    StepOf(t);
    var x, d :| WorkerAdded(t.before, c, t.event.outcome, t.after, x, d);
    n := x;
    assert OwnedBy(n, c);
  }

  /**
    After such a start-worker no delete that is to take along the pool or the
    network recorded then ever succeeds, though every recorded container exists.
   */
  lemma FailedWorkerStrands(run: Run, i: nat, j: nat, c: string)
    requires i < j < |run.events| && run.events[i].action.c == c && run.events[j].action.c == c
    requires run.events[i].action.StartWorker? && run.events[i].outcome != Done && run.worlds[i + 1] != run.worlds[i]
    requires Recorded(run.worlds[i], c) && AllPresent(run.worlds[i].instances, RecordOf(run.worlds[i], c).containers)
    requires run.events[j].action.Delete? && Recorded(run.worlds[j], c)
    requires var a, s, then' := run.events[j].action, RecordOf(run.worlds[j], c), RecordOf(run.worlds[i], c);
             || (a.storage && Contains(s.storagePool, "lxdk") && s.storagePool == then'.storagePool)
             || (a.network && Contains(s.networkID, "lxdk") && s.networkID == then'.networkID)
    ensures run.events[j].outcome != Done
  {
    MoveLinks(run, i);
    var n := FailedWorkerIsOrphan(MoveAt(run, i), c);
    OrphanBlocksDelete(run, i + 1, j, c, n);
  }

  // ---- creates that cannot succeed ----

  /** No command drops a network or a pool that an instance holds. */
  lemma MoveDropsFree(t: Move)
    ensures DroppedFree(t.before, t.after)
  {
    StepOf(t);
    var w, w', c := t.before, t.after, t.event.action.c;
    match t.event.action
    case Create(_, o) => CreateDropsFree(w, c, o, t.event.outcome, w');
    case Start(_, _) =>
      if StartGuard(w, c) {
        var d :| StartedTo(w, c, t.event.outcome, w', d);
      }
    case Stop(_) =>
    case StartWorker(_, _) =>
      if WorkerGuard(w, c) && w' != w {
        var n, d :| WorkerAdded(w, c, t.event.outcome, w', n, d);
      }
    case Delete(_, storage, network) => DeleteDropsFree(w, c, storage, network, t.event.outcome, w');
  }

  lemma CreateDropsFree(w: World, c: string, o: Options, r: Outcome, w': World)
    requires CreateStep(w, c, o, r, w')
    ensures DroppedFree(w, w')
  {
    if c !in w.clusters && !CreateAborted(w, c, o, w') {
      var s :| CreateMade(w, c, o, w', s);
    }
  }

  lemma DeleteDropsFree(w: World, c: string, storage: bool, network: bool, r: Outcome, w': World)
    requires DeleteStep(w, c, storage, network, r, w')
    ensures DroppedFree(w, w')
  {
  }

  /** The cluster has no directory, but a container of its name holds the network create would make. */
  ghost predicate Burnt(w: World, c: string, n: string) {
    && c !in w.clusters && OwnName(c) in w.networks
    && OwnedBy(n, c) && n in w.instances && w.instances[n].network == OwnName(c)
  }

  /** A create that is to make its own network, or none at all. */
  ghost predicate LeavesNetworkOpen(a: Action, c: string) {
    a.c == c && a.Create? ==> a.options.network == ""
  }

  lemma CreateStaysBurnt(w: World, c: string, o: Options, r: Outcome, w': World, n: string)
    requires CreateStep(w, c, o, r, w') && Burnt(w, c, n) && o.network == ""
    ensures Burnt(w', c, n) && r != Done
  {
  }

  lemma MoveStaysBurnt(t: Move, c: string, n: string)
    requires Burnt(t.before, c, n) && LeavesNetworkOpen(t.event.action, c)
    ensures Burnt(t.after, c, n)
    ensures t.event.action.c == c ==> t.event.outcome != Done
  {
    StepOf(t);
    if t.event.action.c != c {
      OthersUntouched(t, c);
      MoveDropsFree(t);
      assert SameAt(t.before.instances, t.after.instances, n);
      assert !NetworkFree(t.after.instances, OwnName(c));
    } else if t.event.action.Create? {
      CreateStaysBurnt(t.before, c, t.event.action.options, t.event.outcome, t.after, n);
    }
  }

  /** A create with its own network that failed after it made a container, before it wrote the record. */
  ghost predicate CreateBurns(t: Transition, c: string) {
    && t.event.action.c == c && t.event.action.Create? && t.event.action.options.network == ""
    && t.after.instances != t.before.instances && c !in t.after.clusters
  }

  lemma BurningCreate(t: Move, c: string) returns (n: string)
    requires CreateBurns(t, c)
    ensures Burnt(t.after, c, n)
  {
    StepOf(t);
    var w, w', o := t.before, t.after, t.event.action.options;
    assert CreateAborted(w, c, o, w');
    assert w'.instances.Keys <= w.instances.Keys ==> w'.instances == w.instances;
    n :| n in w'.instances.Keys && n !in w.instances.Keys;
    var image :| NewContainer(w.instances, w'.instances, n, c, image, PoolOf(c, o), NetworkOf(c, o));
  }

  lemma {:induction false} StaysBurnt(run: Run, i: nat, j: nat, c: string, n: string)
    requires i <= j <= |run.events| && Burnt(run.worlds[i], c, n)
    requires forall k {:trigger run.events[k]} | i <= k < j :: LeavesNetworkOpen(run.events[k].action, c)
    ensures Burnt(run.worlds[j], c, n)
    ensures forall k {:trigger run.events[k]} | i <= k < j && run.events[k].action.c == c :: run.events[k].outcome != Done
    decreases j
  {
    if i < j {
      StaysBurnt(run, i, j - 1, c, n);
      MoveLinks(run, j - 1);
      MoveStaysBurnt(MoveAt(run, j - 1), c, n);
    }
  }

  /**
    A default create that failed after it made a container leaves the cluster's
    name useless: as long as creates of it make their own network no command on
    it ever succeeds again, delete included, and the network stays.
   */
  lemma FailedCreateBurnsName(run: Run, i: nat, j: nat, c: string)
    requires i < j <= |run.events| && CreateBurns(MoveAt(run, i), c)
    requires forall k {:trigger run.events[k]} | i < k < j :: LeavesNetworkOpen(run.events[k].action, c)
    ensures forall k {:trigger run.events[k]} | i < k < j && run.events[k].action.c == c :: run.events[k].outcome != Done
    ensures c !in run.worlds[j].clusters && OwnName(c) in run.worlds[j].networks
  {
    MoveLinks(run, i);
    var n := BurningCreate(MoveAt(run, i), c);
    StaysBurnt(run, i + 1, j, c, n);
  }
}
