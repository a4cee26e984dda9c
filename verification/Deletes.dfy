/** When delete can be completed, and what it means for a cluster that one was not. */
module Deletes {
  import opened Text
  import opened Names
  import opened Wrappers
  import opened Worlds
  import opened Containers
  import opened Steps
  import opened Commands
  import opened Isolation
  import opened Runs
  import opened Guards
  import opened RoundTrip
  import opened Orphans

  // ---- a container that is gone ----

  /** The instance is not there. If the cluster has a record it lists it; if not, its directory is still there. */
  ghost predicate Lost(w: World, c: string, n: string) {
    c in w.clusters && OwnedBy(n, c) && n !in w.instances && (Recorded(w, c) ==> n in RecordOf(w, c).containers)
  }

  /** The directory is there, and its record, if any, lists a container twice. */
  ghost predicate Doubled(w: World, c: string) {
    c in w.clusters && (Recorded(w, c) ==> !Distinct(RecordOf(w, c).containers))
  }

  /** A start-worker that fails after it has made a container of this very name. */
  ghost predicate Remakes(t: Transition, c: string, n: string) {
    && t.event.action.c == c && t.event.action.StartWorker? && t.event.outcome != Done
    && WorkerGuard(t.before, c) && NamedFor(n, c, Worker) && n !in t.before.instances && n in t.after.instances
  }

  lemma ListedTwice(names: seq<string>, n: string)
    requires n in names
    ensures !Distinct(names + [n])
  {
    var i :| 0 <= i < |names| && names[i] == n;
    assert (names + [n])[i] == (names + [n])[|names|];
  }

  lemma WorkerStaysLost(w: World, c: string, hostname: string, r: Outcome, w': World, n: string)
    requires StartWorkerStep(w, c, hostname, r, w') && Lost(w, c, n)
    ensures Lost(w', c, n) ||
            (n in w'.instances && (Doubled(w', c) || (r != Done && WorkerGuard(w, c) && NamedFor(n, c, Worker))))
  {
    if WorkerGuard(w, c) && w' != w {
      var x, d :| WorkerAdded(w, c, r, w', x, d);
      if r == Done && x == n {
        ListedTwice(RecordOf(w, c).containers, n);
      }
    }
  }

  lemma OthersStayLost(t: Move, c: string, n: string)
    requires t.event.action.c != c
    ensures Lost(t.before, c, n) ==> Lost(t.after, c, n)
    ensures Doubled(t.before, c) ==> Doubled(t.after, c)
  {
    OthersUntouched(t, c);
    if OwnedBy(n, c) {
      assert SameAt(t.before.instances, t.after.instances, n);
    }
  }

  lemma StartStaysLost(w: World, c: string, hostname: string, r: Outcome, w': World, n: string)
    requires StartStep(w, c, hostname, r, w') && Lost(w, c, n)
    ensures Lost(w', c, n) && r != Done
  {
  }

  lemma StopStaysLost(w: World, c: string, r: Outcome, w': World, n: string)
    requires StopStep(w, c, r, w') && Lost(w, c, n)
    ensures Lost(w', c, n) && r != Done
  {
  }

  lemma DeleteStaysLost(w: World, c: string, storage: bool, network: bool, r: Outcome, w': World, n: string)
    requires DeleteStep(w, c, storage, network, r, w') && Lost(w, c, n)
    ensures Lost(w', c, n) && r != Done
  {
  }

  /** Only start-worker succeeds while a container is gone, and only by making it anew does anything change about that. */
  lemma MoveStaysLost(t: Move, c: string, n: string)
    requires Lost(t.before, c, n)
    ensures Lost(t.after, c, n) || (n in t.after.instances && (Doubled(t.after, c) || Remakes(t, c, n)))
    ensures t.event.action.c == c && !t.event.action.StartWorker? ==> t.event.outcome != Done && Lost(t.after, c, n)
  {
    if t.event.action.c != c {
      OthersStayLost(t, c, n);
    } else {
      StepOf(t);
      var w, r, w' := t.before, t.event.outcome, t.after;
      match t.event.action
      case Create(_, o) =>
      case Start(_, hostname) => StartStaysLost(w, c, hostname, r, w', n);
      case Stop(_) => StopStaysLost(w, c, r, w', n);
      case StartWorker(_, hostname) => WorkerStaysLost(w, c, hostname, r, w', n);
      case Delete(_, storage, network) => DeleteStaysLost(w, c, storage, network, r, w', n);
    }
  }

  lemma StartStaysDoubled(w: World, c: string, hostname: string, r: Outcome, w': World)
    requires StartStep(w, c, hostname, r, w') && Doubled(w, c)
    ensures Doubled(w', c)
  {
    if StartGuard(w, c) {
      var d :| StartedTo(w, c, r, w', d);
    }
  }

  lemma WorkerStaysDoubled(w: World, c: string, hostname: string, r: Outcome, w': World)
    requires StartWorkerStep(w, c, hostname, r, w') && Doubled(w, c)
    ensures Doubled(w', c)
  {
    if WorkerGuard(w, c) && w' != w {
      var x, d :| WorkerAdded(w, c, r, w', x, d);
      var names := RecordOf(w, c).containers;
      var i, j :| 0 <= i < j < |names| && names[i] == names[j];
      assert (names + [x])[i] == (names + [x])[j];
    }
  }

  lemma MoveStaysDoubled(t: Move, c: string)
    requires Doubled(t.before, c)
    ensures Doubled(t.after, c)
    ensures t.event.action.c == c && t.event.action.Delete? ==> t.event.outcome != Done
  {
    if t.event.action.c != c {
      OthersStayLost(t, c, "");
    } else {
      StepOf(t);
      var w, r, w' := t.before, t.event.outcome, t.after;
      match t.event.action
      case Create(_, _) =>
      case Start(_, hostname) => StartStaysDoubled(w, c, hostname, r, w');
      case Stop(_) =>
      case StartWorker(_, hostname) => WorkerStaysDoubled(w, c, hostname, r, w');
      case Delete(_, _, _) =>
    }
  }

  lemma {:induction false} LostKept(run: Run, i: nat, j: nat, c: string, n: string)
    requires i <= j <= |run.events| && Lost(run.worlds[i], c, n)
    requires forall k | i <= k < j :: !Remakes(MoveAt(run, k), c, n)
    ensures Lost(run.worlds[j], c, n) || Doubled(run.worlds[j], c)
    decreases j
  {
    if i < j {
      LostKept(run, i, j - 1, c, n);
      MoveLinks(run, j - 1);
      if Lost(run.worlds[j - 1], c, n) {
        MoveStaysLost(MoveAt(run, j - 1), c, n);
      } else {
        MoveStaysDoubled(MoveAt(run, j - 1), c);
      }
    }
  }

  /** The delete event `i` failed and got rid of the container. */
  ghost predicate DeleteLoses(run: Run, i: nat, c: string, n: string) {
    && i < |run.events| && run.events[i].action.c == c && run.events[i].action.Delete? && run.events[i].outcome != Done
    && n in run.worlds[i].instances && n !in run.worlds[i + 1].instances
  }

  lemma LosingDelete(t: Move, c: string, n: string)
    requires t.event.action.c == c && t.event.action.Delete? && t.event.outcome != Done
    requires n in t.before.instances && n !in t.after.instances
    ensures Lost(t.after, c, n)
  {
    StepOf(t);
    assert OwnRecord(t.before, c);
    RecordedAreOwned(RecordOf(t.before, c), c);
  }

  lemma LosingDeleteIsDead(t: Move, c: string, n: string)
    requires t.event.action.c == c && t.event.action.Delete? && t.event.outcome != Done
    requires n in t.before.instances && n !in t.after.instances
    ensures Recorded(t.before, c) && (RecordOf(t.before, c).runState != Running ==> DeadEnd(t.after, c))
  {
    StepOf(t);
  }

  /** If the record did not say running when such a delete failed, no command on the cluster ever succeeds again. */
  lemma FailedDeleteIsDeadEnd(run: Run, i: nat, j: nat, c: string, n: string)
    requires i < j < |run.events| && DeleteLoses(run, i, c, n) && run.events[j].action.c == c
    requires Recorded(run.worlds[i], c) && RecordOf(run.worlds[i], c).runState != Running
    ensures run.events[j].outcome != Done
  {
    MoveLinks(run, i);
    LosingDeleteIsDead(MoveAt(run, i), c, n);
    DeadEndsStay(run, i + 1, j + 1, c);
  }

  lemma {:induction false} DoneNeedsRemaking(run: Run, i: nat, j: nat, c: string, n: string)
    requires i <= j < |run.events| && Lost(run.worlds[i], c, n)
    requires run.events[j].action.c == c && run.events[j].action.Delete? && run.events[j].outcome == Done
    ensures exists k | i <= k < j :: Remakes(MoveAt(run, k), c, n)
  {
    if forall k | i <= k < j :: !Remakes(MoveAt(run, k), c, n) {
      LostKept(run, i, j, c, n);
      MoveLinks(run, j);
      if Lost(run.worlds[j], c, n) {
        MoveStaysLost(MoveAt(run, j), c, n);
      } else {
        MoveStaysDoubled(MoveAt(run, j), c);
      }
    }
  }

  /**
    A delete that failed and got rid of a container is never completed, unless
    the container was a worker, the record said running, and a start-worker has
    since made a container of the very same name and then failed.
   */
  lemma FailedDeleteIsFinal(run: Run, i: nat, j: nat, c: string, n: string)
    requires i < j < |run.events| && DeleteLoses(run, i, c, n)
    requires run.events[j].action.c == c && run.events[j].action.Delete? && run.events[j].outcome == Done
    ensures NamedFor(n, c, Worker) && exists k | i < k < j :: Remakes(MoveAt(run, k), c, n)
    ensures Recorded(run.worlds[i], c) && RecordOf(run.worlds[i], c).runState == Running
  {
    MoveLinks(run, i);
    LosingDelete(MoveAt(run, i), c, n);
    LosingDeleteIsDead(MoveAt(run, i), c, n);
    DoneNeedsRemaking(run, i + 1, j, c, n);
    if RecordOf(run.worlds[i], c).runState != Running {
      FailedDeleteIsDeadEnd(run, i, j, c, n);
    }
  }

  lemma {:induction false} StaysLost(run: Run, i: nat, j: nat, c: string, n: string)
    requires i <= j < |run.worlds| && Lost(run.worlds[i], c, n)
    requires forall k {:trigger run.worlds[k]} | i <= k <= j :: n !in run.worlds[k].instances
    ensures Lost(run.worlds[j], c, n)
    decreases j
  {
    if i < j {
      StaysLost(run, i, j - 1, c, n);
      MoveLinks(run, j - 1);
      MoveStaysLost(MoveAt(run, j - 1), c, n);
    }
  }

  /**
    As long as a recorded container is gone no command on the cluster succeeds
    but start-worker, and that only if the record says running.
   */
  lemma MissingBlocks(run: Run, i: nat, j: nat, c: string, n: string)
    requires i <= j < |run.events| && Recorded(run.worlds[i], c) && n in RecordOf(run.worlds[i], c).containers
    requires forall k {:trigger run.worlds[k]} | i <= k <= j :: n !in run.worlds[k].instances
    requires run.events[j].action.c == c && run.events[j].outcome == Done
    ensures run.events[j].action.StartWorker? && RecordOf(run.worlds[i], c).runState == Running
  {
    Reachable(run, i);
    assert OwnRecord(run.worlds[i], c);
    RecordedAreOwned(RecordOf(run.worlds[i], c), c);
    StaysLost(run, i, j, c, n);
    MoveLinks(run, j);
    MoveStaysLost(MoveAt(run, j), c, n);
    if RecordOf(run.worlds[i], c).runState != Running {
      DeadEndsStay(run, i, j + 1, c);
    }
  }

  // ---- deletes that can be completed ----

  /** etcd's container, if it exists, uses the recorded pool and network, and both are there. */
  ghost predicate Housed(w: World, c: string) {
    Recorded(w, c) ==> HousedIn(w, RecordOf(w, c))
  }

  ghost predicate HousedIn(w: World, s: ClusterState) {
    s.etcd in w.instances ==>
      && w.instances[s.etcd].pool == s.storagePool && w.instances[s.etcd].network == s.networkID
      && s.storagePool in w.pools && s.networkID in w.networks
  }

  lemma CreateHouses(w: World, c: string, o: Options, r: Outcome, w': World)
    requires CreateStep(w, c, o, r, w') && Housed(w, c)
    ensures Housed(w', c)
  {
    if c !in w.clusters && Recorded(w', c) {
      var s :| CreateMade(w, c, o, w', s);
    }
  }

  lemma StartHouses(w: World, c: string, hostname: string, r: Outcome, w': World)
    requires StartStep(w, c, hostname, r, w') && Housed(w, c)
    ensures Housed(w', c)
  {
    if StartGuard(w, c) {
      var d :| StartedTo(w, c, r, w', d);
      var n := RecordOf(w, c).etcd;
      assert n in w.instances ==> w'.instances[n].pool == w.instances[n].pool;
    }
  }

  lemma StopHouses(w: World, c: string, r: Outcome, w': World)
    requires StopStep(w, c, r, w') && Housed(w, c)
    ensures Housed(w', c)
  {
  }

  lemma WorkerHouses(w: World, c: string, hostname: string, r: Outcome, w': World)
    requires StartWorkerStep(w, c, hostname, r, w') && Housed(w, c) && OwnRecord(w, c)
    ensures Housed(w', c)
  {
    if WorkerGuard(w, c) && w' != w {
      var n, d :| WorkerAdded(w, c, r, w', n, d);
      if n == RecordOf(w, c).etcd {
        OneOwner(n, c, Worker, c, Etcd);
      }
    }
  }

  lemma DeleteHouses(w: World, c: string, storage: bool, network: bool, r: Outcome, w': World)
    requires DeleteStep(w, c, storage, network, r, w') && Housed(w, c) && OwnRecord(w, c)
    ensures Housed(w', c)
  {
    if Recorded(w, c) && Recorded(w', c) {
      Listed(RecordOf(w, c), c);
    }
  }

  lemma OthersHouse(t: Move, c: string)
    requires Housed(t.before, c) && t.event.action.c != c
    ensures Housed(t.after, c)
  {
    OthersUntouched(t, c);
    MoveDropsFree(t);
    if Recorded(t.before, c) {
      assert OwnRecord(t.before, c);
      var n := RecordOf(t.before, c).etcd;
      assert OwnedBy(n, c) && SameAt(t.before.instances, t.after.instances, n);
    }
  }

  lemma MoveKeepsHoused(t: Move, c: string)
    requires Housed(t.before, c)
    ensures Housed(t.after, c)
  {
    if t.event.action.c != c {
      OthersHouse(t, c);
    } else {
      StepOf(t);
      assert Recorded(t.before, c) ==> OwnRecord(t.before, c);
      var w, r, w' := t.before, t.event.outcome, t.after;
      match t.event.action
      case Create(_, o) => CreateHouses(w, c, o, r, w');
      case Start(_, hostname) => StartHouses(w, c, hostname, r, w');
      case Stop(_) => StopHouses(w, c, r, w');
      case StartWorker(_, hostname) => WorkerHouses(w, c, hostname, r, w');
      case Delete(_, storage, network) => DeleteHouses(w, c, storage, network, r, w');
    }
  }

  lemma {:induction false} AlwaysHoused(run: Run, j: nat, c: string)
    requires j < |run.worlds|
    ensures Housed(run.worlds[j], c)
  {
    if j > 0 {
      AlwaysHoused(run, j - 1, c);
      MoveLinks(run, j - 1);
      MoveKeepsHoused(MoveAt(run, j - 1), c);
    }
  }

  /** An instance no record of the cluster lists is in the pool or the network that delete is to take along. */
  ghost predicate Held(m: map<string, Instance>, s: ClusterState, storage: bool, network: bool) {
    exists n | n in m && n !in s.containers :: InTheWay(m[n], s, storage, network)
  }

  lemma HousedDeletable(w: World, c: string, storage: bool, network: bool)
    requires Recorded(w, c) && HousedIn(w, RecordOf(w, c)) && RecordFor(RecordOf(w, c), c)
    requires AllPresent(w.instances, RecordOf(w, c).containers) && Distinct(RecordOf(w, c).containers)
    ensures Deletable(w, c, storage, network) <==> !Held(w.instances, RecordOf(w, c), storage, network)
  {
    var s := RecordOf(w, c);
    Listed(s, c);
    var rest := w.instances - NameSet(s.containers);
    assert forall n :: n in rest <==> n in w.instances && n !in s.containers;
    assert forall n | n in rest :: rest[n] == w.instances[n];
  }

  /**
    In every run, without faults a delete of a recorded cluster succeeds exactly
    if every recorded container exists, none is recorded twice, and nothing but
    them is in the pool or the network to go; those are always there then.
   */
  lemma DeletableExactly(run: Run, j: nat, c: string, storage: bool, network: bool)
    requires j < |run.worlds| && Recorded(run.worlds[j], c)
    ensures var w, s := run.worlds[j], RecordOf(run.worlds[j], c);
            Deletable(w, c, storage, network) <==>
            AllPresent(w.instances, s.containers) && Distinct(s.containers) && !Held(w.instances, s, storage, network)
  {
    var w := run.worlds[j];
    Reachable(run, j);
    AlwaysHoused(run, j, c);
    assert OwnRecord(w, c);
    if AllPresent(w.instances, RecordOf(w, c).containers) && Distinct(RecordOf(w, c).containers) {
      HousedDeletable(w, c, storage, network);
    }
  }

  /**
    If since the cluster was last without a record no delete of it failed
    partway, a delete succeeds without faults exactly if nothing that the record
    does not list is in the pool or the network to go.
   */
  lemma DeletableUnlessHeld(run: Run, i: nat, j: nat, c: string, storage: bool, network: bool)
    requires i <= j <= |run.events| && !Recorded(run.worlds[i], c) && Recorded(run.worlds[j], c)
    requires forall k | i <= k < j :: !DeleteFails(MoveAt(run, k), c)
    ensures Deletable(run.worlds[j], c, storage, network) <==>
            !Held(run.worlds[j].instances, RecordOf(run.worlds[j], c), storage, network)
  {
    RecordedContainersExist(run, i, j, c);
    DeletableExactly(run, j, c, storage, network);
  }
}
