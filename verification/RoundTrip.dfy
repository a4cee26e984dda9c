/** A cluster that is created, used and deleted, every command on it succeeding, leaves nothing behind. */
module RoundTrip {
  import opened Text
  import opened Names
  import opened Wrappers
  import opened Worlds
  import opened Containers
  import opened Steps
  import opened Commands
  import opened Isolation
  import opened Runs

  /** A name among the recorded containers is new since `m0`; under any other nothing has changed. */
  ghost predicate Accounted(m0: map<string, Instance>, m: map<string, Instance>, names: seq<string>, n: string) {
    if n in names then n !in m0 && n in m else SameAt(m0, m, n)
  }

  /** The cluster was created in `w0` with these flags, and its record accounts for every instance added since. */
  ghost predicate Alive(w0: World, w: World, c: string, o: Options) {
    exists s :: AliveWith(w0, w, c, o, s)
  }

  ghost predicate AliveWith(w0: World, w: World, c: string, o: Options, s: ClusterState) {
    && c !in w0.clusters && c in w.clusters && w.clusters[c].record == Some(s)
    && s.networkID == NetworkOf(c, o) && s.storagePool == PoolOf(c, o)
    && forall n | OwnedBy(n, c) :: Accounted(w0.instances, w.instances, s.containers, n)
  }

  /** Networks and pools are those there were, the given ones among them, and what create made. */
  ghost predicate Holdings(w0: World, w: World, c: string, o: Options) {
    && AddedIfOpen(w0.networks, w.networks, o.network, OwnName(c))
    && AddedIfOpen(w0.pools, w.pools, o.pool, OwnName(c))
    && (o.network == "" || o.network in w0.networks) && (o.pool == "" || o.pool in w0.pools)
  }

  lemma CreateHoldings(w: World, c: string, o: Options, w': World)
    requires CreateStep(w, c, o, Done, w')
    ensures Holdings(w, w', c, o)
  {
  }

  lemma CreateAlive(w: World, c: string, o: Options, w': World)
    requires CreateStep(w, c, o, Done, w')
    ensures Alive(w, w', c, o)
  {
    var s :| CreateMade(w, c, o, w', s);
    MadeAccounts(w.instances, w'.instances, c, s);
    assert AliveWith(w, w', c, o, s);
  }

  lemma MadeAccounts(m: map<string, Instance>, m': map<string, Instance>, c: string, s: ClusterState)
    requires MadeAs(m, m', c, s) && RecordFor(s, c)
    ensures forall n :: Accounted(m, m', s.containers, n)
  {
    Listed(s, c);
    forall n | n in s.containers
      ensures n !in m && n in m'
    {
      assert n in Roles(s);
    }
    forall n | n !in s.containers
      ensures SameAt(m, m', n)
    {
      assert n in m'.Keys <==> n in m.Keys;
    }
  }

  /** A successful command on a live cluster, other than delete. */
  ghost predicate Uses(e: Event, c: string) {
    e.action.c == c ==> e.outcome == Done && !e.action.Delete?
  }

  lemma StartAlive(w0: World, w: World, c: string, o: Options, w': World, d: ClusterDir, s: ClusterState)
    requires AliveWith(w0, w, c, o, s) && StartedTo(w, c, Done, w', d)
    ensures Alive(w0, w', c, o)
  {
    forall n | OwnedBy(n, c)
      ensures Accounted(w0.instances, w'.instances, s.containers, n)
    {
      assert Accounted(w0.instances, w.instances, s.containers, n);
    }
    assert AliveWith(w0, w', c, o, s.(runState := Running));
  }

  lemma StopAlive(w0: World, w: World, c: string, o: Options, w': World, s: ClusterState)
    requires AliveWith(w0, w, c, o, s) && StopStep(w, c, Done, w')
    ensures Alive(w0, w', c, o)
  {
    forall n | OwnedBy(n, c)
      ensures Accounted(w0.instances, w'.instances, s.containers, n)
    {
      assert Accounted(w0.instances, w.instances, s.containers, n);
    }
    assert AliveWith(w0, w', c, o, s.(runState := Stopped));
  }

  lemma WorkerAlive(w0: World, w: World, c: string, o: Options, w': World, x: string, d: ClusterDir, s: ClusterState)
    requires AliveWith(w0, w, c, o, s) && WorkerAdded(w, c, Done, w', x, d)
    ensures Alive(w0, w', c, o)
  {
    forall n | OwnedBy(n, c)
      ensures Accounted(w0.instances, w'.instances, s.containers + [x], n)
    {
      assert Accounted(w0.instances, w.instances, s.containers, n);
    }
    assert AliveWith(w0, w', c, o, s.(containers := s.containers + [x], workers := s.workers + [x]));
  }

  lemma OthersAlive(w0: World, w: World, c: string, o: Options, w': World, s: ClusterState)
    requires AliveWith(w0, w, c, o, s) && SameFor(w, w', c)
    ensures Alive(w0, w', c, o)
  {
    forall n | OwnedBy(n, c)
      ensures Accounted(w0.instances, w'.instances, s.containers, n)
    {
      assert Accounted(w0.instances, w.instances, s.containers, n) && SameAt(w.instances, w'.instances, n);
    }
    assert AliveWith(w0, w', c, o, s);
  }

  lemma MoveAlive(w0: World, t: Move, c: string, o: Options)
    requires Alive(w0, t.before, c, o) && Uses(t.event, c)
    ensures Alive(w0, t.after, c, o)
  {
    StepOf(t);
    var s :| AliveWith(w0, t.before, c, o, s);
    if t.event.action.c != c {
      OthersUntouched(t, c);
      OthersAlive(w0, t.before, c, o, t.after, s);
    } else if t.event.action.Start? {
      var d :| StartedTo(t.before, c, Done, t.after, d);
      StartAlive(w0, t.before, c, o, t.after, d, s);
    } else if t.event.action.Stop? {
      StopAlive(w0, t.before, c, o, t.after, s);
    } else if t.event.action.StartWorker? {
      var n, d :| WorkerAdded(t.before, c, Done, t.after, n, d);
      WorkerAlive(w0, t.before, c, o, t.after, n, d, s);
    }
  }

  lemma MoveHolds(w0: World, t: Move, c: string, o: Options)
    requires t.event.action.c == c && Uses(t.event, c) && Alive(w0, t.before, c, o) && Holdings(w0, t.before, c, o)
    ensures Holdings(w0, t.after, c, o)
  {
    StepOf(t);
    var s :| AliveWith(w0, t.before, c, o, s);
    if t.event.action.Start? {
      var d :| StartedTo(t.before, c, Done, t.after, d);
    } else if t.event.action.StartWorker? {
      var n, d :| WorkerAdded(t.before, c, Done, t.after, n, d);
    }
  }

  /** Event `i` creates the cluster, event `j` deletes it with delete's default flags, and every command on it between succeeds. */
  ghost predicate Lifetime(run: Run, i: nat, j: nat, c: string, o: Options) {
    && i < j < |run.events|
    && run.events[i] == Event(Create(c, o), Done) && run.events[j] == Event(Delete(c, true, true), Done)
    && forall k {:trigger run.events[k]} | i < k < j :: Uses(run.events[k], c)
  }

  /** Only this cluster's commands are carried out from event `i` to event `j`. */
  ghost predicate Alone(run: Run, i: nat, j: nat, c: string) {
    j < |run.events| && forall k {:trigger run.events[k]} | i <= k <= j :: run.events[k].action.c == c
  }

  lemma CreatedAlive(t: Move, c: string, o: Options)
    requires t.event == Event(Create(c, o), Done)
    ensures Alive(t.before, t.after, c, o) && Holdings(t.before, t.after, c, o)
  {
    StepOf(t);
    CreateAlive(t.before, c, o, t.after);
    CreateHoldings(t.before, c, o, t.after);
  }

  /** While it is used, and as long as nothing else goes on, networks and pools stay put too. */
  lemma {:induction false} StaysAlive(run: Run, i: nat, j: nat, k: nat, c: string, o: Options)
    requires Lifetime(run, i, j, c, o) && i < k <= j
    ensures Alive(run.worlds[i], run.worlds[k], c, o)
    ensures Alone(run, i, j, c) ==> Holdings(run.worlds[i], run.worlds[k], c, o)
    decreases k
  {
    var t := MoveAt(run, k - 1);
    if k == i + 1 {
      CreatedAlive(t, c, o);
    } else {
      StaysAlive(run, i, j, k - 1, c, o);
      MoveAlive(run.worlds[i], t, c, o);
      if Alone(run, i, j, c) {
        MoveHolds(run.worlds[i], t, c, o);
      }
    }
  }

  lemma OwnNameTests(c: string)
    ensures Contains(OwnName(c), "lxdk")
  {
    assert OwnName(c)[0..4] == "lxdk";
    assert OccursAt(OwnName(c), "lxdk", 0);
  }

  lemma DeleteRestores(w0: World, t: Move, c: string, o: Options)
    requires Alive(w0, t.before, c, o) && t.event == Event(Delete(c, true, true), Done)
    ensures SameFor(w0, t.after, c)
    ensures o.network == "" ==> OwnName(c) !in t.after.networks
    ensures o.pool == "" ==> OwnName(c) !in t.after.pools
  {
    StepOf(t);
    OwnNameTests(c);
    var s :| AliveWith(w0, t.before, c, o, s);
    forall n | OwnedBy(n, c)
      ensures SameAt(w0.instances, t.after.instances, n)
    {
      assert Accounted(w0.instances, t.before.instances, s.containers, n);
    }
  }

  /**
    Whatever other clusters' commands do in between, succeeding or failing,
    everything that belongs to the cluster is afterwards as it was before: the
    instances with names of its own, its directory, its network and its pool.
   */
  lemma LeavesNothingBehind(run: Run, i: nat, j: nat, c: string, o: Options)
    requires Lifetime(run, i, j, c, o)
    ensures SameFor(run.worlds[i], run.worlds[j + 1], c)
    ensures o.network == "" ==> OwnName(c) !in run.worlds[i].networks && OwnName(c) !in run.worlds[j + 1].networks
    ensures o.pool == "" ==> OwnName(c) !in run.worlds[i].pools && OwnName(c) !in run.worlds[j + 1].pools
  {
    StaysAlive(run, i, j, j, c, o);
    CreatedAlive(MoveAt(run, i), c, o);
    DeleteRestores(run.worlds[i], MoveAt(run, j), c, o);
  }

  // ---- nothing else going on ----

  /** Instances and directories of others are untouched by commands on this cluster. */
  lemma {:induction false} ElsewhereSame(run: Run, i: nat, j: nat, k: nat, c: string)
    requires i <= k <= j + 1 && Alone(run, i, j, c)
    ensures OnlyOwn(run.worlds[i].instances, run.worlds[k].instances, c) && OnlyDirectory(run.worlds[i], run.worlds[k], c)
    decreases k
  {
    if i < k {
      ElsewhereSame(run, i, j, k - 1, c);
      MoveIsolated(MoveAt(run, k - 1));
      OnlyOwnTwice(run.worlds[i].instances, run.worlds[k - 1].instances, run.worlds[k].instances, c);
    }
  }

  lemma OnlyOwnTwice(m0: map<string, Instance>, m1: map<string, Instance>, m2: map<string, Instance>, c: string)
    requires OnlyOwn(m0, m1, c) && OnlyOwn(m1, m2, c)
    ensures OnlyOwn(m0, m2, c)
  {
  }

  /** The set is restored, unless a name was given that tests as lxdk's own: delete takes that along. */
  ghost predicate RestoredUnlessTaken(before: set<string>, after: set<string>, given: string) {
    after == before <==> given == "" || !Contains(given, "lxdk")
  }

  lemma OpenRestored(before: set<string>, between: set<string>, given: string, own: string, c: string)
    requires AddedIfOpen(before, between, given, own) && own == OwnName(c) && (given == "" || given in before)
    ensures RestoredUnlessTaken(before, WithoutOwn(between, if given == "" then own else given, true), given)
  {
    OwnNameTests(c);
    if given == "" {
      assert before + {own} - {own} == before;
    }
  }

  lemma SameEverywhere(w0: World, w: World, c: string)
    requires SameFor(w0, w, c) && OnlyOwn(w0.instances, w.instances, c) && OnlyDirectory(w0, w, c)
    ensures w.instances == w0.instances && w.clusters == w0.clusters
  {
    forall n
      ensures n in w.instances <==> n in w0.instances
      ensures n in w0.instances ==> w.instances[n] == w0.instances[n]
    {
      assert SameAt(w0.instances, w.instances, n);
    }
  }

  /**
    If nothing else goes on in between, LXD's instances, networks and pools and
    the cache are exactly as they were before create. With a network or pool
    given to create this holds exactly if delete does not take it for lxdk's
    own by its name.
   */
  lemma CreateToDeleteRestores(run: Run, i: nat, j: nat, c: string, o: Options)
    requires Lifetime(run, i, j, c, o) && Alone(run, i, j, c)
    ensures run.worlds[j + 1].instances == run.worlds[i].instances && run.worlds[j + 1].clusters == run.worlds[i].clusters
    ensures RestoredUnlessTaken(run.worlds[i].networks, run.worlds[j + 1].networks, o.network)
    ensures RestoredUnlessTaken(run.worlds[i].pools, run.worlds[j + 1].pools, o.pool)
  {
    LeavesNothingBehind(run, i, j, c, o);
    ElsewhereSame(run, i, j, j + 1, c);
    SameEverywhere(run.worlds[i], run.worlds[j + 1], c);
    StaysAlive(run, i, j, j, c, o);
    DeleteHoldings(run.worlds[i], MoveAt(run, j), c, o);
  }

  lemma DeleteHoldings(w0: World, t: Move, c: string, o: Options)
    requires Alive(w0, t.before, c, o) && Holdings(w0, t.before, c, o) && t.event == Event(Delete(c, true, true), Done)
    ensures RestoredUnlessTaken(w0.networks, t.after.networks, o.network)
    ensures RestoredUnlessTaken(w0.pools, t.after.pools, o.pool)
  {
    StepOf(t);
    var s :| AliveWith(w0, t.before, c, o, s);
    OpenRestored(w0.networks, t.before.networks, o.network, OwnName(c), c);
    OpenRestored(w0.pools, t.before.pools, o.pool, OwnName(c), c);
  }
}
